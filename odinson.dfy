/**
 * The Odinson parser (`CustomParser`): turns one Odinson sentence into the
 * tokens and dependency links of the annotation graph. Its state is the
 * growing `data.tokens` and `data.links`, the `parsedDocuments` record and
 * the running index offset `lastTokenIdx`.
 */
module Odinson {
  import opened Components
  import opened Numbers
  import opened OdinsonSpec

  /** The field loop of `_parseSentence`: every field but "dependencies" becomes a layer, that one the graph. */
  method SplitFields(fields: seq<Field>) returns (sentenceFields: map<string, seq<string>>, sentenceGraph: Option<seq<Edge>>)
    ensures sentenceFields == Layers(fields) && sentenceGraph == DependencyGraph(fields)
  {
    sentenceFields := map[];
    sentenceGraph := None;
    var i := 0;
    while i < |fields|
      invariant 0 <= i <= |fields|
      invariant sentenceFields == Layers(fields[..i])
      invariant sentenceGraph == DependencyGraph(fields[..i])
    {
      var field := fields[i];
      assert fields[..i + 1][..i] == fields[..i];
      if field.name != DependenciesField {
        sentenceFields := sentenceFields[field.name := field.tokens];
      } else {
        sentenceGraph := Some(field.edges);
      }
      i := i + 1;
    }
    assert fields[..i] == fields;
  }

  class CustomParser {
    /** `data.tokens`: every token built since the last reset, in order. */
    var tokens: seq<Token>
    /** `data.links`: every link built since the last reset, in order. */
    var links: seq<Link>
    /** The document objects returned by `_parseSentence`, by position. */
    var parsedDocuments: map<int, Document>
    /** The global index of the last token of the previous sentence. */
    var lastTokenIdx: int

    constructor ()
      ensures tokens == [] && links == [] && parsedDocuments == map[] && lastTokenIdx == -1
    {
      tokens := [];
      links := [];
      parsedDocuments := map[];
      lastTokenIdx := -1;
    }

    /** Reinitialises every field: no token, no link, no document, and no index taken. */
    method Reset()
      modifies this
      ensures tokens == [] && links == [] && parsedDocuments == map[] && lastTokenIdx == -1
    {
      tokens := [];
      links := [];
      parsedDocuments := map[];
      lastTokenIdx := -1;
    }

    /**
     * `_parseSentence`: appends the sentence's tokens (indices continuing
     * after `lastTokenIdx`) and its dependency links, then advances
     * `lastTokenIdx` by the declared `numTokens`. `sentenceClock` is the
     * clock reading that names the sentence.
     */
    method ParseSentence(sentence: Sentence, docId: string, sentenceClock: nat) returns (r: Result<Document>)
      requires WellFormed(sentence)
      modifies this
      ensures r.Failure? <==> WordField !in Layers(sentence.fields)
      ensures r.Failure? ==>
        && r.error == MissingWordField
        && tokens == old(tokens) && links == old(links)
        && parsedDocuments == old(parsedDocuments) && lastTokenIdx == old(lastTokenIdx)
      ensures r.Success? ==>
        var layers := Layers(sentence.fields);
        var toks := SentenceTokens(layers, |layers[WordField]|, old(lastTokenIdx));
        && r.value == Document([toks])
        && tokens == old(tokens) + toks
        && links == old(links) + SentenceLinks(docId, SentenceId(sentenceClock), DependencyGraph(sentence.fields), toks)
        && lastTokenIdx == old(lastTokenIdx) + sentence.numTokens
        && parsedDocuments == old(parsedDocuments)
    {
      var sentenceId := SentenceId(sentenceClock);

      var sentenceFields, sentenceGraph := SplitFields(sentence.fields);

      if WordField !in sentenceFields {
        return Failure(MissingWordField);
      }

      var thisSentence := AppendTokens(sentenceFields);

      lastTokenIdx := lastTokenIdx + sentence.numTokens;

      if sentenceGraph.Some? {
        AppendDependencyLinks(docId, sentenceId, sentenceGraph.value, thisSentence);
      }

      r := Success(Document([thisSentence]));
    }

    /**
     * The token loop of `_parseSentence`: one token per word, with global
     * index `i + lastTokenIdx + 1`, appended to `data.tokens`; the same
     * tokens in the same order are returned as the sentence.
     */
    method AppendTokens(sentenceFields: map<string, seq<string>>) returns (thisSentence: seq<Token>)
      requires WordField in sentenceFields && LayersCover(sentenceFields, |sentenceFields[WordField]|)
      modifies this`tokens
      ensures thisSentence == SentenceTokens(sentenceFields, |sentenceFields[WordField]|, lastTokenIdx)
      ensures tokens == old(tokens) + thisSentence
    {
      var word := sentenceFields[WordField];
      thisSentence := [];
      var i := 0;
      while i < |word|
        invariant 0 <= i <= |word|
        invariant thisSentence == SentenceTokens(sentenceFields, i, lastTokenIdx)
        invariant tokens == old(tokens) + thisSentence
      {
        var thisToken := Token(word[i], i + lastTokenIdx + 1, TokenLabels(sentenceFields, i));
        assert SentenceTokens(sentenceFields, i + 1, lastTokenIdx) == thisSentence + [thisToken];
        thisSentence := thisSentence + [thisToken];
        tokens := tokens + [thisToken];
        i := i + 1;
      }
    }

    /**
     * The edge loop of `_parseSentence`: for edge `i`, a `universal-basic`
     * and then a `universal-enhanced` link are appended to `data.links`.
     */
    method AppendDependencyLinks(docId: string, sentenceId: string, edges: seq<Edge>, thisSentence: seq<Token>)
      requires EdgesInRange(edges, |thisSentence|)
      modifies this`links
      ensures links == old(links) + DependencyLinks(docId, sentenceId, edges, thisSentence)
    {
      var i := 0;
      while i < |edges|
        invariant 0 <= i <= |edges|
        invariant links == old(links) + DependencyLinks(docId, sentenceId, edges[..i], thisSentence)
      {
        var edge := edges[i];
        DependencyLinksSnoc(docId, sentenceId, edges, thisSentence, i);
        ghost var done := DependencyLinks(docId, sentenceId, edges[..i], thisSentence);
        var basic := CreateLinkInstance(docId, sentenceId, BasicKind, i, edge, thisSentence);
        var enhanced := CreateLinkInstance(docId, sentenceId, EnhancedKind, i, edge, thisSentence);
        links := links + [basic];
        links := links + [enhanced];
        AppendTwice(old(links), done, basic, enhanced);
        i := i + 1;
      }
      assert edges[..i] == edges;
    }

    /**
     * `parse`: resets all state, parses the input (the first element of an
     * array input) and returns the tokens and links. The result and the
     * new state depend on the arguments alone, never on earlier calls.
     */
    method Parse(input: Input, docClock: nat, sentenceClock: nat) returns (r: Result<ParseResult>)
      requires InputWellFormed(input)
      modifies this
      ensures r == ParseSpec(input, docClock, sentenceClock)
      ensures tokens == (if r.Success? then r.value.tokens else [])
      ensures links == (if r.Success? then r.value.links else [])
      ensures parsedDocuments == (if r.Success? then map[0 := Document([r.value.tokens])] else map[])
      ensures lastTokenIdx == (if r.Success? then Unwrap(input).value.numTokens - 1 else -1)
    {
      Reset();
      var toParse := Unwrap(input);
      if toParse.None? {
        return Failure(EmptyInput);
      }
      var doc := ParseSentence(toParse.value, NatToString(docClock), sentenceClock);
      if doc.Failure? {
        return Failure(doc.error);
      }
      parsedDocuments := parsedDocuments[0 := doc.value];
      ghost var layers := Layers(toParse.value.fields);
      ghost var toks := SentenceTokens(layers, |layers[WordField]|, -1);
      ghost var sentenceLinks := SentenceLinks(NatToString(docClock), SentenceId(sentenceClock),
                                               DependencyGraph(toParse.value.fields), toks);
      assert [] + toks == toks && [] + sentenceLinks == sentenceLinks;
      r := Success(ParseResult(tokens, links));
    }
  }
}
