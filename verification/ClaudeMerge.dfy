/** The merge loop run with the Claude rewrite: its own check before the write never refuses it.
    internal/agent/harness/writer.go with internal/agent/harness/preserve.go; how a JSON value is
    printed and read is left open. */
module ClaudeMerge {
  import opened Prelude
  import opened TomlRender
  import opened JsonEdit
  import opened ClaudeFile
  import opened ConfigWriter

  /** Reading JSON text, None when it is none; printing a value in the manner of a text. */
  datatype JsonText = JsonText(read: Bytes -> Option<Json>, write: (Bytes, Json) -> Bytes)

  /** An object that is printed is read back, and is not blank. */
  ghost predicate RoundTrips(io: JsonText) {
    forall b, j: Json | j.Object? :: io.read(io.write(b, j)) == Some(j) && !Blank(io.write(b, j))
  }

  /** The document a text is: nothing when blank, an error when it is no JSON. */
  function Doc(io: JsonText, b: Bytes): Option<Option<Json>> {
    if Blank(b) then Some(None) else match io.read(b) case None => None case Some(j) => Some(Some(j))
  }

  function Residual(io: JsonText, managed: seq<string>, b: Bytes): Option<map<string, Tree>> {
    match Doc(io, b)
    case None => None
    case Some(doc) =>
      match ParseTree(doc)
      case None => None
      case Some(tree) => Some(StripManaged(tree, CONTAINER, managed))
  }

  function RewriteText(io: JsonText, entries: seq<Entry>, managed: seq<string>, b: Bytes): Option<Bytes> {
    match Doc(io, b)
    case None => None
    case Some(doc) =>
      match Rewrite(doc, entries, managed)
      case Err(_) => None
      case Ok(j) => Some(io.write(b, j))
  }

  /** What the merge procedure is given for a Claude config. */
  function ClaudeFormat(io: JsonText, entries: seq<Entry>, managed: seq<string>): Format<map<string, Tree>> {
    Format(b => Residual(io, managed, b), b => RewriteText(io, entries, managed, b))
  }

  /** Blank, or an object whose container is absent or an object. */
  predicate Mergeable(io: JsonText, b: Bytes) {
    match Doc(io, b)
    case None => false
    case Some(doc) => Parse(doc).Some? && Servers(Parse(doc).value).Some?
  }

  /** The entries have passed their own validation and are among the managed names. */
  predicate Acceptable(entries: seq<Entry>, managed: seq<string>) {
    forall i | 0 <= i < |entries| :: ValidEntry(entries[i]) && entries[i].name in managed
  }

  lemma ValidEncodes(e: Entry)
    requires ValidEntry(e)
    ensures Encode(e).Some?
  {
  }

  /** The rewrite succeeds exactly on the documents it can edit, and whatever it writes passes the
      check: parse(after) minus managed equals parse(before) minus managed. */
  lemma CheckNeverRefuses(io: JsonText, entries: seq<Entry>, managed: seq<string>, before: Bytes)
    requires RoundTrips(io) && Acceptable(entries, managed)
    ensures var fmt := ClaudeFormat(io, entries, managed);
      && (fmt.rewrite(before).Some? <==> Mergeable(io, before))
      && (fmt.rewrite(before).Some? ==> fmt.Merges(before, fmt.rewrite(before).value))
  {
    forall i | 0 <= i < |entries|
      ensures Encode(entries[i]).Some?
    {
      ValidEncodes(entries[i]);
    }
    hide ValidEntry, Encode, StripManaged, ParseTree, Rewrite;
    if Mergeable(io, before) {
      var doc := Doc(io, before).value;
      RewritePreserves(doc, entries, managed);
      var after := Rewrite(doc, entries, managed).value;
      RewriteKeepsOrder(doc, entries, managed);
      assert Doc(io, io.write(before, after)) == Some(Some(after));
    } else {
      RewriteRefuses(io, entries, managed, before);
    }
  }

  lemma RewriteRefuses(io: JsonText, entries: seq<Entry>, managed: seq<string>, before: Bytes)
    requires !Mergeable(io, before)
    ensures RewriteText(io, entries, managed, before).None?
  {
  }

  /** A merge over what it wrote itself, untouched, can be written, passes the check, and has
      nothing to write exactly when printing the object again over that text settles. */
  lemma SecondMergeUnchangedIff(io: JsonText, entries: seq<Entry>, managed: seq<string>, before: Bytes)
    requires RoundTrips(io) && Acceptable(entries, managed) && Mergeable(io, before)
    ensures var fmt := ClaudeFormat(io, entries, managed);
      && fmt.rewrite(before).Some?
      && var after, j := fmt.rewrite(before).value, Rewrite(Doc(io, before).value, entries, managed);
         && j.Ok? && fmt.rewrite(after).Some? && fmt.Merges(after, fmt.rewrite(after).value)
         && (fmt.rewrite(after) == Some(after) <==> io.write(after, j.value) == after)
  {
    CheckNeverRefuses(io, entries, managed, before);
    hide ValidEntry, Rewrite, ParseTree, StripManaged;
    var doc := Doc(io, before).value;
    var j := Rewrite(doc, entries, managed).value;
    RewriteKeepsOrder(doc, entries, managed);
    RewriteIdempotent(doc, entries, managed);
    var after := io.write(before, j);
    assert Doc(io, after) == Some(Some(j));
    CheckNeverRefuses(io, entries, managed, after);
  }

  /** An undisturbed merge fails exactly on documents the rewrite cannot edit; otherwise the file
      ends as the rewrite of what was there, and is only written when that differs. */
  lemma UndisturbedIff(io: JsonText, entries: seq<Entry>, managed: seq<string>, content: Content)
    requires RoundTrips(io) && Acceptable(entries, managed)
    ensures var (status, after) := Undisturbed(ClaudeFormat(io, entries, managed), content);
      && (status == Failed <==> !Mergeable(io, Read(content)))
      && (status == Failed || status == Unchanged ==> after == content)
      && (status == Changed || status == Unchanged ==> Some(Read(after)) == RewriteText(io, entries, managed, Read(content)))
  {
    CheckNeverRefuses(io, entries, managed, Read(content));
    hide Mergeable, RewriteText, Residual;
  }
}
