/** Keys as text: what upload, serving and cleanup each build for a job's files, and why the files of
    two jobs never share a key.
*/
module Keys {

  import opened Wrappers
  import opened Text
  import opened Jobs
  import Lifecycle

  // ---------- The keys ----------

  predicate IsHex(c: char) {
    '0' <= c <= '9' || 'a' <= c <= 'f'
  }

  /** Sixteen random bytes in lower-case hexadecimal. */
  predicate IsId(id: string) {
    |id| == 32 && forall i :: 0 <= i < |id| ==> IsHex(id[i])
  }

  /** Keys the service can come to use: names are single path elements. */
  predicate Proper(k: Key) {
    IsId(k.id) && (k.TreeFile? || '/' !in k.name)
  }

  function JobDir(id: Id): string {
    "processed/" + (id + "/")
  }

  function HlsRoot(id: Id): string {
    JobDir(id) + "hls/"
  }

  function KeyText(k: Key): string {
    match k
    case Raw(id, name) => "raw/" + (id + ("/" + name))
    case Rendition(id, name) => JobDir(id) + (name + ".mp4")
    case TreeFile(id, path) => HlsRoot(id) + path
  }

  /** The original is stored where handleCreateUpload says. */
  lemma RawKeyText(id: Id, name: string)
    ensures KeyText(Raw(id, name)) == "raw/" + id + "/" + name
  {
    Associative("raw/", id, "/" + name);
    Associative("raw/" + id, "/", name);
  }

  lemma SameDir(a: Id, b: Id, s: string, t: string)
    requires IsId(a) && IsId(b) && JobDir(a) + s == JobDir(b) + t
    ensures a == b && s == t
  {
    var text := JobDir(a) + s;
    assert text[10..42] == a && text[43..] == s;
    assert text[10..42] == b && text[43..] == t;
  }

  lemma SameRaw(a: Id, b: Id, s: string, t: string)
    requires IsId(a) && IsId(b) && "raw/" + (a + ("/" + s)) == "raw/" + (b + ("/" + t))
    ensures a == b && s == t
  {
    var text := "raw/" + (a + ("/" + s));
    assert text[4..36] == a && text[37..] == s;
    assert text[4..36] == b && text[37..] == t;
  }

  lemma Rooted(id: Id, path: string)
    ensures HlsRoot(id) + path == JobDir(id) + ("hls/" + path)
  {
  }

  /** No key of one job or kind is a key of another: distinct keys have distinct texts. */
  lemma KeyTextInjective(a: Key, b: Key)
    requires Proper(a) && Proper(b) && KeyText(a) == KeyText(b)
    ensures a == b
  {
    var text := KeyText(a);
    assert text[0] == if a.Raw? then 'r' else 'p';
    assert text[0] == if b.Raw? then 'r' else 'p';
    if a.Raw? {
      SameRaw(a.id, b.id, a.name, b.name);
    } else {
      SameDir(a.id, b.id, Below(a), Below(b));
      SameFile(a, b);
    }
  }

  /** The part of a processed key below the job's directory. */
  function Below(k: Key): (below: string)
    requires !k.Raw?
    ensures KeyText(k) == JobDir(k.id) + below
  {
    match k
    case Rendition(_, name) => name + ".mp4"
    case TreeFile(id, path) =>
      Rooted(id, path);
      "hls/" + path
  }

  lemma SameFile(a: Key, b: Key)
    requires Proper(a) && Proper(b) && !a.Raw? && !b.Raw? && Below(a) == Below(b) && a.id == b.id
    ensures a == b
  {
    var below := Below(a);
    SlashMeansTree(a);
    SlashMeansTree(b);
    if a.TreeFile? {
      assert below[4..] == a.path && below[4..] == b.path;
    } else {
      assert below[..|below| - 4] == a.name && below[..|below| - 4] == b.name;
    }
  }

  lemma SlashMeansTree(k: Key)
    requires Proper(k) && !k.Raw?
    ensures '/' in Below(k) <==> k.TreeFile?
  {
    if k.TreeFile? {
      assert Below(k)[3] == '/';
    } else {
      assert '/' !in k.name && '/' !in ".mp4";
    }
  }

  /** The prefix that cleanup deletes catches the files of this job's tree, all of them and nothing else. */
  lemma PrefixCatchesTree(id: Id, k: Key)
    requires IsId(id) && Proper(k)
    ensures HlsRoot(id) <= KeyText(k) <==> Lifecycle.InTree(k, id)
  {
    if HlsRoot(id) <= KeyText(k) {
      var path := KeyText(k)[|HlsRoot(id)|..];
      KeyTextInjective(k, TreeFile(id, path));
    }
  }

  // ---------- Renditions ----------

  /** Where uploadOutput puts a rendition's file. */
  function UploadedKey(id: Id, filename: string): string {
    "processed/" + id + "/" + filename
  }

  /** The key deleteJobFiles deletes for an output. */
  function DeletedKey(id: Id, name: string): string {
    "processed/" + id + "/" + name + ".mp4"
  }

  /** The key handleDownload reads: only for names that the record lists; None for its error answers. */
  method DownloadKey(rec: Record, name: string) returns (key: Option<string>)
    ensures key == if rec.kind == MP4 && name in rec.outputs then Some(KeyText(Rendition(rec.id, name))) else None
  {
    if rec.kind != MP4 {
      return None;
    }
    var found := false;
    for i := 0 to |rec.outputs|
      invariant found <==> name in rec.outputs[..i]
    {
      if rec.outputs[i] == name {
        found := true;
        SplitAround(rec.outputs, i);
        break;
      }
      assert rec.outputs[..i + 1] == rec.outputs[..i] + [rec.outputs[i]];
    }
    assert rec.outputs[..|rec.outputs|] == rec.outputs;
    if !found {
      return None;
    }
    RenditionKeysAgree(rec.id, name);
    key := Some(DeletedKey(rec.id, name));
  }

  lemma SplitAround(names: seq<string>, i: nat)
    requires i < |names|
    ensures names[i] in names
  {
  }

  /** Upload, download and cleanup build the same key for a rendition. */
  lemma RenditionKeysAgree(id: Id, name: string)
    ensures UploadedKey(id, name + ".mp4") == KeyText(Rendition(id, name)) == DeletedKey(id, name)
  {
    var dir := "processed/" + id + "/";
    assert JobDir(id) == dir;
    Associative(dir, name, ".mp4");
  }

  // ---------- The name of an upload ----------

  function Slashes(s: string): (t: string)
    ensures '\\' !in t && |t| == |s|
    ensures '\\' !in s ==> t == s
    ensures forall i :: 0 <= i < |s| ==> if s[i] == '\\' then t[i] == '/' else t[i] == s[i]
  {
    if s == "" then "" else [if s[0] == '\\' then '/' else s[0]] + Slashes(s[1..])
  }

  function TrimSlashes(s: string): (t: string)
    ensures t <= s && (t == s || '/' in s)
  {
    if s != "" && s[|s| - 1] == '/' then TrimSlashes(s[..|s| - 1]) else s
  }

  /** Go's filepath.Base: the last element of the path. */
  function LastElement(s: string): string {
    if s == "" then "."
    else if TrimSlashes(s) == "" then "/"
    else
      var elements := Elements(TrimSlashes(s));
      elements[|elements| - 1]
  }

  /** The name under which handleCreateUpload stores the original, if it accepts the client's. */
  function UploadName(filename: string): Option<string> {
    var name := LastElement(Slashes(filename));
    if name == "." || name == ".." || name == "/" || name == "" || |name| > 255 then None else Some(name)
  }

  predicate FileName(name: string) {
    Plain(name) && '\\' !in name && |name| <= 255
  }

  lemma {:induction false} ElementsFrom(s: string)
    ensures forall c, e :: e in Elements(s) && c in e ==> c in s
    ensures '/' !in s ==> Elements(s) == [s]
    decreases |s|
  {
    var n := Find(s, '/');
    if n < |s| {
      ElementsFrom(s[n + 1..]);
    } else {
      assert s[..n] == s;
    }
  }

  /** The text up to its last slash, and what follows it. */
  ghost predicate SplitLast(s: string, dir: string, last: string) {
    s == dir + last && (dir == "" || dir[|dir| - 1] == '/')
  }

  lemma SplitMore(head: string, rest: string, dir: string, last: string)
    requires SplitLast(rest, dir, last)
    ensures SplitLast(head + "/" + rest, head + "/" + dir, last)
  {
    Associative(head + "/", dir, last);
  }

  /** The last element is what follows the last slash. */
  lemma {:induction false} LastOf(s: string) returns (dir: string)
    ensures SplitLast(s, dir, Elements(s)[|Elements(s)| - 1])
    decreases |s|
  {
    var n := Find(s, '/');
    if n == |s| {
      dir := "";
      assert s[..n] == s && "" + s == s;
    } else {
      var rest := s[n + 1..];
      dir := LastOf(rest);
      assert s == s[..n] + "/" + rest;
      SplitMore(s[..n], rest, dir, Elements(rest)[|Elements(rest)| - 1]);
      dir := s[..n] + "/" + dir;
    }
  }

  lemma {:induction false} TrimmedSlashes(s: string)
    ensures forall i :: |TrimSlashes(s)| <= i < |s| ==> s[i] == '/'
  {
    if s != "" && s[|s| - 1] == '/' {
      TrimmedSlashes(s[..|s| - 1]);
    }
  }

  /** An accepted name is the part of the client's, with backslashes for slashes, after its last slash, slashes
      at the end aside. */
  lemma UploadNameIsLast(filename: string) returns (dir: string, tail: string)
    requires UploadName(filename).Some?
    ensures Slashes(filename) == dir + UploadName(filename).value + tail
    ensures dir == "" || dir[|dir| - 1] == '/'
    ensures forall i :: 0 <= i < |tail| ==> tail[i] == '/'
  {
    var s := Slashes(filename);
    TrimmedSlashes(s);
    dir := LastOf(TrimSlashes(s));
    tail := s[|TrimSlashes(s)|..];
  }

  /** A client cannot place its upload anywhere but under its own id, and plain names are kept. */
  lemma UploadNameIsPlain(id: Id, filename: string)
    ensures UploadName(filename).Some? ==> FileName(UploadName(filename).value)
    ensures IsId(id) && UploadName(filename).Some? ==> Proper(Raw(id, UploadName(filename).value))
    ensures FileName(filename) <==> UploadName(filename) == Some(filename)
  {
    ElementsFrom(TrimSlashes(Slashes(filename)));
  }

  // ---------- Cleaning paths ----------

  /** The elements between slashes. */
  function Elements(s: string): (elements: seq<string>)
    ensures elements != [] && forall e :: e in elements ==> '/' !in e
    decreases |s|
  {
    var n := Find(s, '/');
    if n == |s| then [s[..n]] else [s[..n]] + Elements(s[n + 1..])
  }

  function Join(elements: seq<string>): string {
    if elements == [] then ""
    else if |elements| == 1 then elements[0]
    else elements[0] + "/" + Join(elements[1..])
  }

  /** An element that names something: not empty, not a dot or two, no slash. */
  predicate Plain(e: string) {
    e != "" && e != "." && e != ".." && '/' !in e
  }

  /** One element read: what is left of the path so far. */
  function Enter(rooted: bool, done: seq<string>, e: string): seq<string> {
    if e == "" || e == "." then done
    else if e == ".." then
      if done != [] && done[|done| - 1] != ".." then done[..|done| - 1]
      else if rooted then done
      else done + [".."]
    else done + [e]
  }

  function Walk(rooted: bool, done: seq<string>, elements: seq<string>): seq<string>
    decreases |elements|
  {
    if elements == [] then done else Walk(rooted, Enter(rooted, done, elements[0]), elements[1..])
  }

  predicate IsAbsolute(s: string) {
    s != "" && s[0] == '/'
  }

  /** Go's path.Clean, by its documented rules. */
  function Clean(s: string): string {
    var done := Walk(IsAbsolute(s), [], Elements(s));
    if IsAbsolute(s) then "/" + Join(done)
    else if done == [] then "."
    else Join(done)
  }

  /** Steps up come first, plain elements after them. */
  ghost predicate Shaped(done: seq<string>) {
    (forall i :: 0 <= i < |done| ==> Plain(done[i]) || done[i] == "..") &&
    forall i :: 0 < i < |done| && done[i] == ".." ==> done[i - 1] == ".."
  }

  predicate AllPlain(elements: seq<string>) {
    forall i :: 0 <= i < |elements| ==> Plain(elements[i])
  }

  lemma {:induction false} WalkShape(done: seq<string>, elements: seq<string>)
    requires Shaped(done) && forall i :: 0 <= i < |elements| ==> '/' !in elements[i]
    ensures Shaped(Walk(false, done, elements))
    decreases |elements|
  {
    if elements != [] {
      WalkShape(Enter(false, done, elements[0]), elements[1..]);
    }
  }

  lemma {:induction false} StaysBelow(done: seq<string>, n: nat)
    requires Shaped(done) && done != [] && done[0] != ".." && n < |done|
    ensures Plain(done[n])
  {
    if n > 0 {
      StaysBelow(done, n - 1);
    }
  }

  lemma {:induction false} WalkPlain(rooted: bool, done: seq<string>, elements: seq<string>)
    requires AllPlain(elements)
    ensures Walk(rooted, done, elements) == done + elements
    decreases |elements|
  {
    if elements == [] {
      assert done + elements == done;
    } else {
      assert Plain(elements[0]);
      WalkPlain(rooted, done + [elements[0]], elements[1..]);
      assert done + [elements[0]] + elements[1..] == done + elements;
    }
  }

  lemma {:induction false} ElementsOfJoin(elements: seq<string>)
    requires elements != [] && forall i :: 0 <= i < |elements| ==> '/' !in elements[i]
    ensures Elements(Join(elements)) == elements
  {
    if |elements| == 1 {
      OneElement(elements[0]);
      assert elements == [elements[0]];
    } else {
      ElementsOfJoin(elements[1..]);
      FirstElement(elements[0], Join(elements[1..]));
      assert elements == [elements[0]] + elements[1..];
    }
  }

  lemma OneElement(e: string)
    requires '/' !in e
    ensures Elements(e) == [e]
  {
    FindIn(e, '/', "");
    assert e + "" == e && e[..|e|] == e;
  }

  lemma FirstElement(e: string, rest: string)
    requires '/' !in e
    ensures Elements(e + "/" + rest) == [e] + Elements(rest)
  {
    SplitAt(e, '/', rest);
  }

  lemma JoinFirst(elements: seq<string>)
    requires elements != [] && elements[0] != ""
    ensures Join(elements) != "" && Join(elements)[0] == elements[0][0]
  {
  }

  /** A path of plain elements is clean. */
  lemma CleanPlain(elements: seq<string>)
    requires AllPlain(elements) && elements != []
    ensures Clean(Join(elements)) == Join(elements) && !IsAbsolute(Join(elements))
  {
    assert Plain(elements[0]);
    JoinFirst(elements);
    ElementsOfJoin(elements);
    WalkPlain(false, [], elements);
    assert [] + elements == elements;
  }

  lemma {:induction false} WalkConcat(rooted: bool, done: seq<string>, a: seq<string>, b: seq<string>)
    ensures Walk(rooted, done, a + b) == Walk(rooted, Walk(rooted, done, a), b)
    decreases |a|
  {
    if a == [] {
      assert a + b == b;
    } else {
      assert (a + b)[0] == a[0] && (a + b)[1..] == a[1..] + b;
      WalkConcat(rooted, Enter(rooted, done, a[0]), a[1..], b);
    }
  }

  /** The rules of path.Clean, wherever they apply: a dot or an empty element says nothing, and a step up undoes
      the plain element before it. */
  lemma CleanRules(rooted: bool, before: seq<string>, after: seq<string>, e: string)
    ensures Walk(rooted, [], before + (["."] + after)) == Walk(rooted, [], before + after)
    ensures Walk(rooted, [], before + ([""] + after)) == Walk(rooted, [], before + after)
    ensures Plain(e) ==> Walk(rooted, [], before + ([e, ".."] + after)) == Walk(rooted, [], before + after)
  {
    var done := Walk(rooted, [], before);
    WalkConcat(rooted, [], before, after);
    WalkConcat(rooted, [], before, ["."] + after);
    WalkConcat(rooted, [], before, [""] + after);
    WalkConcat(rooted, [], before, [e, ".."] + after);
    assert (["."] + after)[1..] == after && ([""] + after)[1..] == after;
    assert ([e, ".."] + after)[1..] == [".."] + after && ([".."] + after)[1..] == after;
    assert (done + [e])[..|done + [e]| - 1] == done;
    assert Walk(rooted, done, ["."] + after) == Walk(rooted, done, after);
    assert Walk(rooted, done, [""] + after) == Walk(rooted, done, after);
    if Plain(e) {
      assert Walk(rooted, done, [e, ".."] + after) == Walk(rooted, done + [e], [".."] + after);
    }
  }

  // ---------- Serving ----------

  function Base(id: Id): string {
    "/videos/" + id + "/hls/"
  }

  /** The checks that handleHLSFile makes on the cleaned path. */
  predicate Escapes(clean: string) {
    clean == "." || clean == ".." || "../" <= clean || '\\' in clean || IsAbsolute(clean)
  }

  /** The key handleHLSFile reads for a URL path; None when it answers with an error instead. */
  function ServedKey(id: Id, urlPath: string): Option<string> {
    match After(Base(id), urlPath)
    case None => None
    case Some(rest) =>
      if rest == "" then None
      else
        var clean := Clean(rest);
        if Escapes(clean) then None else Some("processed/" + id + "/hls/" + clean)
  }

  /** The path of a tree file: plain elements without backslashes. */
  ghost predicate TreePath(path: string) {
    exists elements: seq<string> :: elements != [] && AllPlain(elements) && path == Join(elements) && '\\' !in path
  }

  lemma RootText(id: Id, path: string)
    ensures "processed/" + id + "/hls/" + path == KeyText(TreeFile(id, path))
  {
  }

  lemma UpEscapes(done: seq<string>)
    requires done != []
    ensures done[0] == ".." ==> Escapes(Join(done))
  {
    if done[0] == ".." && |done| > 1 {
      assert Join(done)[..3] == "../";
    }
  }

  lemma StartsUp(path: string)
    ensures "../" <= path ==> Elements(path)[0] == ".."
  {
    if "../" <= path {
      SplitAt("..", '/', path[3..]);
      assert path == ".." + ['/'] + path[3..];
    }
  }

  /** Whatever the URL says, what is served lies in this job's own tree and its path never steps up; and
      every path that cleans to one of the tree is served. */
  lemma ServedExactly(id: Id, rest: string)
    ensures ServedKey(id, Base(id) + rest) ==
      if TreePath(Clean(rest)) then Some(KeyText(TreeFile(id, Clean(rest)))) else None
  {
    assert (Base(id) + rest)[|Base(id)|..] == rest;
    assert Clean("") == "." by {
      assert Elements("") == [""];
    }
    RootText(id, Clean(rest));
    if !Escapes(Clean(rest)) {
      CleanedIsTreePath(rest);
    } else if TreePath(Clean(rest)) {
      var elements: seq<string> :| elements != [] && AllPlain(elements) && Clean(rest) == Join(elements) &&
                                   '\\' !in Clean(rest);
      PlainStart(elements);
    }
    if TreePath(".") {
      var elements: seq<string> :| elements != [] && AllPlain(elements) && "." == Join(elements);
      PlainStart(elements);
    }
  }

  lemma CleanedIsTreePath(rest: string)
    requires !Escapes(Clean(rest))
    ensures TreePath(Clean(rest))
  {
    var done := Walk(IsAbsolute(rest), [], Elements(rest));
    assert !IsAbsolute(rest) by {
      if IsAbsolute(rest) {
        assert IsAbsolute(Clean(rest));
      }
    }
    WalkShape([], Elements(rest));
    assert done != [] && Clean(rest) == Join(done);
    UpEscapes(done);
    forall i | 0 <= i < |done|
      ensures Plain(done[i])
    {
      StaysBelow(done, i);
    }
  }

  /** Every file of a job's tree can be fetched: the URL that names it leads to the key it was stored
      under, which is also where uploadHLSDirectory put it. */
  lemma UploadedIsServed(id: Id, path: string)
    requires TreePath(path)
    ensures ServedKey(id, Base(id) + path) == Some(KeyText(TreeFile(id, path)))
    ensures IsId(id) ==> UploadKey(id, path) == KeyText(TreeFile(id, path))
  {
    var elements: seq<string> :| elements != [] && AllPlain(elements) && path == Join(elements);
    CleanPlain(elements);
    assert Plain(elements[0]);
    JoinFirst(elements);
    assert (Base(id) + path)[|Base(id)|..] == path;
    RootText(id, path);
    if |elements| > 1 {
      assert path == elements[0] + ("/" + Join(elements[1..]));
    }
    PlainStart(elements);
    if IsId(id) {
      UploadClean(id, elements);
    }
  }

  lemma PlainStart(elements: seq<string>)
    requires elements != [] && AllPlain(elements) && '\\' !in Join(elements)
    ensures !Escapes(Join(elements))
  {
    var path := Join(elements);
    assert Plain(elements[0]);
    JoinFirst(elements);
    ElementsOfJoin(elements);
    StartsUp(path);
    ElementsOfJoin(["."]);
    ElementsOfJoin([".."]);
  }

  /** filepath.Join(prefix, rel) as uploadHLSDirectory uses it, on a system whose separator is a slash. */
  function UploadKey(id: Id, rel: string): string {
    Clean("processed/" + id + "/hls" + "/" + rel)
  }

  lemma JoinNext(e: string, elements: seq<string>)
    requires elements != []
    ensures Join([e] + elements) == e + "/" + Join(elements)
  {
    assert ([e] + elements)[1..] == elements;
  }

  lemma RootJoined(id: Id, rel: string)
    ensures "processed" + "/" + (id + "/" + ("hls" + "/" + rel)) == "processed/" + id + "/hls" + "/" + rel
  {
    assert id + "/" + ("hls" + "/" + rel) == id + "/hls" + "/" + rel;
  }

  lemma RootElements(id: Id, elements: seq<string>)
    requires elements != []
    ensures Join(["processed"] + ([id] + (["hls"] + elements))) == "processed/" + id + "/hls" + "/" + Join(elements)
  {
    JoinNext("hls", elements);
    JoinNext(id, ["hls"] + elements);
    JoinNext("processed", [id] + (["hls"] + elements));
    RootJoined(id, Join(elements));
  }

  lemma UploadClean(id: Id, elements: seq<string>)
    requires IsId(id) && elements != [] && AllPlain(elements)
    ensures UploadKey(id, Join(elements)) == KeyText(TreeFile(id, Join(elements)))
  {
    TreeIsPlain(id, elements);
    CleanPlain(["processed"] + ([id] + (["hls"] + elements)));
    RootElements(id, elements);
    RootText(id, Join(elements));
  }

  lemma TreeIsPlain(id: Id, elements: seq<string>)
    requires IsId(id) && AllPlain(elements)
    ensures AllPlain(["processed"] + ([id] + (["hls"] + elements)))
  {
    assert Plain(id) && Plain("processed") && Plain("hls");
    assert AllPlain(["hls"] + elements);
    assert AllPlain([id] + (["hls"] + elements));
  }
}
