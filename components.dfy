/**
 * Value model of the two classes that the Odinson parser imports from
 * `components/Token` and `components/Link`. Only what the parser itself
 * builds is modelled: a token's text, its global index and its labels, and
 * a link's id, anchor, typed arguments, relation and category.
 */
module Components {

  /** A word of the annotation graph: surface form, global index, label layers. */
  datatype Token = Token(text: string, idx: int, labels: map<string, string>)

  /** One typed argument of a link: `{anchor, type}`. */
  datatype Argument = Argument(anchor: Token, argType: string)

  /** A directed, typed link from `anchor` to each of its `args`. */
  datatype Link = Link(id: string, anchor: Token, args: seq<Argument>, relType: string, category: string)
}
