/** Model of the document splitter in pkg/helm/manifest.go, driven by the scanner
    loop on input that arrives in chunks of any size. */
module HelmManifest {
  import opened Scanner

  const SEPARATOR := "\n---"

  function SplitYAMLDocuments(data: string, eof: bool): Split {
    SplitOn(SEPARATOR, data, eof)
  }

  lemma SplitIsStable()
    ensures Stable(SplitYAMLDocuments)
  {
    forall data: string, longer: string, eof: bool | data <= longer && SplitYAMLDocuments(data, false).Token?
      ensures SplitYAMLDocuments(longer, eof) == SplitYAMLDocuments(data, false)
    {
      SplitOnIsStable(SEPARATOR, data, longer, eof);
    }
  }

  /** A document and its separator must lie within one window. */
  predicate TooLong(rest: string) {
    var i := Find(rest, SEPARATOR);
    if i < 0 then |rest| >= MAX_TOKEN else i > MAX_TOKEN - |SEPARATOR|
  }

  function Documents(rest: string): seq<string>
    decreases |rest|
  {
    var i := Find(rest, SEPARATOR);
    if rest == "" || TooLong(rest) then []
    else if i < 0 then [rest]
    else [rest[..i]] + Documents(After(rest, i + |SEPARATOR|))
  }

  /** What is left unread: nothing, or a text whose first document is too long. */
  function Unread(rest: string): string
    decreases |rest|
  {
    var i := Find(rest, SEPARATOR);
    if TooLong(rest) then rest else if i < 0 then "" else Unread(After(rest, i + |SEPARATOR|))
  }

  lemma FirstDocument(rest: string)
    ensures var i := Find(rest, SEPARATOR);
      Next(SplitYAMLDocuments, rest) ==
        if rest == "" || TooLong(rest) then NeedMore
        else if i < 0 then Token(|rest|, rest)
        else Token(i + |SEPARATOR|, rest[..i])
  {
    FirstPart(SEPARATOR, rest);
  }

  lemma {:induction false} TokensAreDocuments(rest: string)
    requires Stable(SplitYAMLDocuments)
    ensures Tokens(SplitYAMLDocuments, rest) == Documents(rest)
    decreases |rest|
  {
    FirstDocument(rest);
    var i := Find(rest, SEPARATOR);
    if rest != "" && !TooLong(rest) {
      if i < 0 {
        assert rest[|rest|..] == "";
        TokensAreDocuments("");
      } else {
        TokensAreDocuments(After(rest, i + |SEPARATOR|));
      }
    }
  }

  /** The documents of a manifest, however its text is delivered. */
  method SplitManifest(manifest: string, chunk: nat -> nat) returns (documents: seq<string>)
    ensures documents == Documents(manifest)
  {
    SplitIsStable();
    documents := ScanAll(SplitYAMLDocuments, manifest, chunk);
    TokensAreDocuments(manifest);
  }

  /** The documents, each followed by a separator. */
  function Terminated(documents: seq<string>): string {
    if documents == [] then "" else documents[0] + SEPARATOR + Terminated(documents[1..])
  }

  /** The documents with separators between them. */
  function Joined(documents: seq<string>): string {
    if documents == [] then ""
    else if |documents| == 1 then documents[0]
    else documents[0] + SEPARATOR + Joined(documents[1..])
  }

  ghost predicate Restored(text: string, documents: seq<string>, unread: string) {
    if unread != "" then text == Terminated(documents) + unread
    else if documents == [] then text == ""
    else text == Joined(documents) || text == Joined(documents) + SEPARATOR
  }

  lemma OneMoreDocument(first: string, rest: string, documents: seq<string>, unread: string)
    requires Restored(rest, documents, unread)
    ensures Restored(first + SEPARATOR + rest, [first] + documents, unread)
  {
    assert ([first] + documents)[1..] == documents;
    var before := first + SEPARATOR;
    if unread != "" {
      assert before + (Terminated(documents) + unread) == before + Terminated(documents) + unread;
    } else if documents == [] {
      assert before + rest == before;
    } else {
      assert before + (Joined(documents) + SEPARATOR) == before + Joined(documents) + SEPARATOR;
    }
  }

  /** Main result: nothing is lost.  A manifest that was read to its end is its
      documents joined again, up to one separator at the end; otherwise what is left
      begins with a document that is too long. */
  lemma {:induction false} JoiningRestores(manifest: string)
    ensures Restored(manifest, Documents(manifest), Unread(manifest))
    ensures Unread(manifest) != "" ==> TooLong(Unread(manifest))
    decreases |manifest|
  {
    var i := Find(manifest, SEPARATOR);
    if manifest != "" && !TooLong(manifest) && i >= 0 {
      var first, rest := manifest[..i], manifest[i + |SEPARATOR|..];
      JoiningRestores(rest);
      OneMoreDocument(first, rest, Documents(rest), Unread(rest));
      assert manifest == first + SEPARATOR + rest;
    }
  }

  /** No document contains a separator, so the split is the finest there is. */
  lemma {:induction false} DocumentsHaveNoSeparator(manifest: string)
    ensures forall d | d in Documents(manifest) :: Find(d, SEPARATOR) < 0
    decreases |manifest|
  {
    var i := Find(manifest, SEPARATOR);
    if manifest != "" && !TooLong(manifest) && i >= 0 {
      assert manifest == manifest[..i] + manifest[i..];
      FindInPrefix(manifest[..i], manifest[i..], SEPARATOR);
      DocumentsHaveNoSeparator(manifest[i + |SEPARATOR|..]);
    }
  }
}
