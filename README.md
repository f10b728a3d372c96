# Odinson sentence parser, modelled in Dafny

This project models `CustomParser`, the parser that turns one sentence of an
Odinson annotation document into the tokens and dependency links of the
annotation graph.

- The parser keeps state: the growing `data.tokens` and `data.links`, the
  `parsedDocuments` record, and the running index offset `lastTokenIdx`.
- `parse` resets that state and unwraps an array input to its first element.
  It then runs `_parseSentence` and returns `{tokens, links}`.
- `_parseSentence` runs three loops:
  - the field loop splits the sentence's `fields` into label layers and the
    one `dependencies` graph;
  - the token loop builds one token per entry of the `word` layer, with global
    index `i + lastTokenIdx + 1` and labels taken from the optional layers;
  - after `lastTokenIdx` has advanced by the declared `numTokens`, the edge
    loop emits a `universal-basic` and a `universal-enhanced` link for every
    edge `[gov, dep, rel]`.

Files:

- `components.dfy` (module `Components`): `Token`, `Argument` and `Link` as
  plain datatypes. The source's `components/Token` and `components/Link` are
  not part of this model.
- `numbers.dfy` (module `Numbers`): decimal rendering of numbers inside link
  ids, and its injectivity.
- `odinson_spec.dfy` (module `OdinsonSpec`): the input shapes, and what each
  loop computes as pure functions (`Layers`, `DependencyGraph`, `TokenLabels`,
  `SentenceTokens`, `DependencyLinks`, `ParseSpec`). The lemmas about them are
  here too.
- `odinson.dfy` (module `Odinson`): the class `CustomParser`, with imperative
  methods whose postconditions tie the new state to those functions.
  `SplitFields` is the field loop.

The JavaScript exceptions become `Failure` results:

- a sentence without a `word` field fails with `MissingWordField`, because
  reading `sentenceFields.word.length` throws;
- an empty array input fails with `EmptyInput`, because its first element is
  `undefined` and reading its `fields` throws.

In both cases the state is what it was just before the throw.

The two `Date.now()` clock readings are parameters. `docClock` becomes the
document id, rendered as a decimal string. `sentenceClock` becomes
`sentence-<clock>`.

Two facts about the source's output and checks:

- `parse` returns only `{tokens, links}`. This parser builds no clusters and
  no word list.
- The source does not check edge positions. The model requires in-range
  edges instead.

## Model

| member | source | states |
|---|---|---|
| Odinson.CustomParser.constructor | Parsers/odinson.js:11-25 | starts with no tokens, no links, no parsed documents and `lastTokenIdx == -1` |
| Odinson.CustomParser.Reset | Parsers/odinson.js:51-59 | reinitialises all four fields to the constructor's values |
| Odinson.CustomParser.Parse | Parsers/odinson.js:36-44 | result and new state equal `ParseSpec(input, docClock, sentenceClock)`, which depends on the arguments only. So no token or link of an earlier call survives (reset isolation). `parsedDocuments` becomes `{0: document}` and `lastTokenIdx` becomes `numTokens - 1` |
| Odinson.CustomParser.ParseSentence | Parsers/odinson.js:69-165 | fails exactly when there is no `word` layer, and then nothing changes. Otherwise it appends the sentence's tokens, offset by the old `lastTokenIdx`, and returns them as the document's one sentence. It appends the sentence's dependency links and advances `lastTokenIdx` by exactly `numTokens`, once |
| Odinson.SplitFields | Parsers/odinson.js:97-110 | the loop yields exactly `Layers(fields)` and `DependencyGraph(fields)` |
| Odinson.CustomParser.AppendTokens | Parsers/odinson.js:112-137 | `data.tokens` grows by exactly the sentence's tokens. The same sequence, in the same order, is returned as the sentence |
| Odinson.CustomParser.AppendDependencyLinks | Parsers/odinson.js:141-160 | `data.links` grows by exactly `DependencyLinks` of the edges |
| OdinsonSpec.LayersKeys | Parsers/odinson.js:102-110 | a name is a layer iff some field carries it and it is not `dependencies` |
| OdinsonSpec.LayersLastWins | Parsers/odinson.js:102-110 | the last field with a given name supplies that layer's values |
| OdinsonSpec.DependencyGraphPresent | Parsers/odinson.js:100-110 | a dependency graph exists iff some field is named `dependencies` |
| OdinsonSpec.DependencyGraphLastWins | Parsers/odinson.js:100-110 | the last `dependencies` field supplies the edges |
| OdinsonSpec.TokenLabelRules | Parsers/odinson.js:115-133 | a label is present iff its source layer is present, and it carries that layer's `i`-th value. `tag` gives `POS` and `norms` gives `norm`. `entity` gives both `entity` and `default`, with the same value. No other label is ever set |
| OdinsonSpec.SentenceTokens | Parsers/odinson.js:112-137 | there is one token per word. Token `k` has that word as its text, index `offset + 1 + k`, and the labels of word `k` |
| OdinsonSpec.SentenceIndexContinuity | Parsers/odinson.js:112-139 | when a sentence declares as many tokens as it has words, the next sentence's indices continue its own without a gap |
| OdinsonSpec.DependencyLinks | Parsers/odinson.js:141-160 | `2 * |edges|` links |
| OdinsonSpec.DependencyLinksSnoc | Parsers/odinson.js:142-158 | loop helper for `AppendDependencyLinks`: one turn of the edge loop appends the basic link and then the enhanced link of edge `i`. `DependencyLinksAt` states what the whole loop produces |
| OdinsonSpec.DependencyLinksAt | Parsers/odinson.js:75-160 | the two links of edge `k` are exactly `CreateLinkInstance`'s output (the model of `createLinkInstance`) for the basic and the enhanced kind. Position `2k` holds the basic link of edge `k`. Its id is `docId-sentenceId-universal-basic-k`, its anchor is the governor token, its one argument is the dependent typed by the relation, and its relation is the edge's. Position `2k+1` holds the same link with only its id and its category changed to the enhanced ones |
| OdinsonSpec.LinkIdInjective | Parsers/odinson.js:84 | within one sentence, a dependency link id determines its kind and its edge index |
| OdinsonSpec.DependencyLinkIdsDistinct | Parsers/odinson.js:141-160 | all the dependency links of one sentence have pairwise distinct ids |
| Numbers.NatToStringInjective | Parsers/odinson.js:84 | different edge indices (and clock readings) render as different decimal strings |
| OdinsonSpec.ParseFailures | Parsers/odinson.js:36-44 | `parse` fails with `EmptyInput` exactly on an empty array, and with `MissingWordField` exactly when the sentence has no `word` layer |
| OdinsonSpec.ParseTokensIndexed | Parsers/odinson.js:36-58 | after `parse`, the tokens are the words in order, with indices `0 .. |word|-1` |
| OdinsonSpec.ParseLinkCount | Parsers/odinson.js:141-160 | after `parse` there are `2*E` links for `E` edges, and none without a dependency graph |
| OdinsonSpec.ParseUsesFirstElement | Parsers/odinson.js:39 | an array input is parsed exactly as its first element alone |

## Left out

- `js/style.js` is left out entirely. It is presentation configuration: SVG
  gradients, font measurement and global drawing objects.
- The `Date.now()` clock reads are nondeterministic, so they are parameters
  (`docClock`, `sentenceClock`).
- `Token.registerLabel` and the `Link` constructor live in files that are not
  part of this model. A token's labels are a map. Each label name is
  registered at most once per token, so the model claims no overwrite or
  deduplication semantics of `registerLabel`.
- Object identity and aliasing are not modelled. In the source, `parse`
  returns the parser's own `data` object, and a link's anchors are the same
  objects as the tokens in `data.tokens`. In the model they are equal values.
- Layers shorter than `word` and edges whose indices fall outside the
  sentence are excluded by the precondition `WellFormed`. The source reads
  `undefined` there.
- The model assumes no relation between `numTokens` and the length of
  `word`. It states the advance of `lastTokenIdx` in terms of `numTokens`
  alone.
- Type errors from malformed objects are not modelled: a missing `fields`,
  `tokens`, `edges` or `numTokens`, or non-array values. A present layer
  array is truthy even when it is empty, so presence is modelled as the key
  being in the map.
- A field named `__proto__` would change the prototype of the JavaScript
  dictionary. The model treats it as an ordinary layer name.
- Mention resolution, long labels, clusters and hidden mentions do not occur
  in this parser.
