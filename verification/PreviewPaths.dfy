/** Names of the files on the preview state branch: what may be stored, and whose it is. */
module PreviewPaths {
  import opened Text

  const ROOT := "site/pr/"
  const STATE := "state.json"
  const LISTING := "site/index.html"
  const NO_JEKYLL := "site/.nojekyll"

  const EXTENSIONS: set<string> := {
    ".html", ".css", ".js", ".json", ".txt", ".png", ".jpg", ".jpeg", ".gif", ".webp", ".avif", ".ico",
    ".woff", ".woff2", ".ttf", ".otf"
  }

  predicate IsSha(s: string) {
    |s| == 40 && forall i :: 0 <= i < |s| ==> '0' <= s[i] <= '9' || 'a' <= s[i] <= 'f'
  }

  /** A pull request number as it is written: one to ten digits, no leading zero. */
  predicate IsNumber(s: string) {
    0 < |s| <= 10 && AllDigits(s) && s[0] != '0'
  }

  predicate Portable(c: char) {
    'A' <= c <= 'Z' || 'a' <= c <= 'z' || '0' <= c <= '9' || c in "_./-"
  }

  /** `s.split("/")`. */
  function Parts(s: string): (parts: seq<string>)
    ensures |parts| > 0
  {
    if s == "" then [""]
    else
      var rest := Parts(s[1..]);
      if s[0] == '/' then [""] + rest else [[s[0]] + rest[0]] + rest[1..]
  }

  /** `s.rfind(".")`. */
  function LastDot(s: string): (i: int)
    ensures -1 <= i < |s|
  {
    if s == "" then -1 else if s[|s| - 1] == '.' then |s| - 1 else LastDot(s[..|s| - 1])
  }

  /** `PurePosixPath(part).suffix` of a final path component. */
  function Suffix(part: string): string {
    var i := LastDot(part);
    if 0 < i < |part| - 1 then part[i..] else ""
  }

  function Lower(s: string): string {
    seq(|s|, i requires 0 <= i < |s| => if 'A' <= s[i] <= 'Z' then (s[i] as int + 32) as char else s[i])
  }

  predicate IsStatic(name: string) {
    && 0 < |name| <= 240
    && (forall i :: 0 <= i < |name| ==> Portable(name[i]))
    && var parts := Parts(name);
       && (forall i :: 0 <= i < |parts| ==> parts[i] != "" && parts[i][0] != '.')
       && |parts| <= 12
       && Lower(Suffix(parts[|parts| - 1])) in EXTENSIONS
  }

  /** What stands before the first slash, and what stands after it if there is one. */
  function CutSlash(s: string): (r: (string, Option<string>))
    ensures '/' !in r.0
    ensures r.1.Some? ==> s == r.0 + "/" + r.1.value
  {
    if s == "" then ("", None)
    else if s[0] == '/' then ("", Some(s[1..]))
    else
      var rest := CutSlash(s[1..]);
      ([s[0]] + rest.0, rest.1)
  }

  lemma {:induction false} CutJoined(a: string, b: string)
    requires '/' !in a
    ensures CutSlash(a + "/" + b) == (a, Some(b))
  {
    var s := a + "/" + b;
    if a == "" {
      assert s[1..] == b;
    } else {
      assert s[1..] == a[1..] + "/" + b;
      CutJoined(a[1..], b);
      assert a == [a[0]] + a[1..];
    }
  }

  // ------------------------------------------------------------------ ownership

  function PrPrefix(n: string): string {
    ROOT + n + "/"
  }

  function ShaPrefix(n: string, sha: string): string {
    PrPrefix(n) + sha + "/"
  }

  /** The page that forwards to a pull request's latest build. */
  function ForwardPath(n: string): string {
    PrPrefix(n) + "index.html"
  }

  function IndexPath(n: string, sha: string): string {
    ShaPrefix(n, sha) + "index.html"
  }

  /** The tail after the number: the forwarding page. The pattern's unescaped dot admits any
      character but a newline; a slash there is refused by the second, extension, check. */
  predicate ForwardTail(t: string) {
    |t| == 10 && t[..5] == "index" && t[5] !in "\n/" && t[6..] == "html"
  }

  /** The tail after the number: a file of one build. */
  predicate BuildTail(t: string) {
    var (sha, rest) := CutSlash(t);
    IsSha(sha) && rest.Some? && IsStatic(rest.value)
  }

  /** The component of a stored path that names its pull request. */
  function NumberOf(path: string): string
    requires StartsWith(path, ROOT)
  {
    CutSlash(path[|ROOT|..]).0
  }

  function TailOf(path: string): Option<string>
    requires StartsWith(path, ROOT)
  {
    CutSlash(path[|ROOT|..]).1
  }

  /** The names the state branch may hold. */
  predicate IsKnown(path: string) {
    || path in {STATE, NO_JEKYLL, LISTING}
    || (StartsWith(path, ROOT) && IsNumber(NumberOf(path)) && TailOf(path).Some?
        && (ForwardTail(TailOf(path).value) || BuildTail(TailOf(path).value)))
  }

  /** Everything below a pull request's directory carries its number. */
  lemma UnderNumber(path: string, n: string)
    requires StartsWith(path, PrPrefix(n)) && '/' !in n
    ensures StartsWith(path, ROOT) && NumberOf(path) == n && TailOf(path) == Some(path[|PrPrefix(n)|..])
  {
    var p := PrPrefix(n);
    assert path == p + path[|p|..];
    assert path[..|ROOT|] == ROOT;
    assert path[|ROOT|..] == n + "/" + path[|p|..];
    CutJoined(n, path[|p|..]);
  }

  /** A stored path with a number lies below that number's directory. */
  lemma NumberedIsUnder(path: string)
    requires StartsWith(path, ROOT) && TailOf(path).Some?
    ensures StartsWith(path, PrPrefix(NumberOf(path)))
  {
    var n, t := NumberOf(path), TailOf(path).value;
    assert path == ROOT + path[|ROOT|..];
    assert path == PrPrefix(n) + t;
  }

  /** The directories of two pull requests share no path. */
  lemma DirectoriesAreDisjoint(path: string, m: string, n: string)
    requires IsNumber(m) && IsNumber(n)
    requires StartsWith(path, PrPrefix(m)) && StartsWith(path, PrPrefix(n))
    ensures m == n
  {
    UnderNumber(path, m);
    UnderNumber(path, n);
  }

  lemma ForwardIsKnown(n: string)
    requires IsNumber(n)
    ensures StartsWith(ForwardPath(n), PrPrefix(n)) && IsKnown(ForwardPath(n))
    ensures NumberOf(ForwardPath(n)) == n && TailOf(ForwardPath(n)) == Some("index.html")
  {
    var path := ForwardPath(n);
    assert path[..|PrPrefix(n)|] == PrPrefix(n) && path[|PrPrefix(n)|..] == "index.html";
    UnderNumber(path, n);
  }

  lemma BuildFileIsKnown(n: string, sha: string, name: string)
    requires IsNumber(n) && IsSha(sha) && IsStatic(name)
    ensures StartsWith(ShaPrefix(n, sha) + name, ShaPrefix(n, sha)) && IsKnown(ShaPrefix(n, sha) + name)
    ensures StartsWith(ShaPrefix(n, sha) + name, PrPrefix(n)) && NumberOf(ShaPrefix(n, sha) + name) == n
    ensures TailOf(ShaPrefix(n, sha) + name) == Some(sha + "/" + name)
  {
    var path, p := ShaPrefix(n, sha) + name, PrPrefix(n);
    assert path[..|ShaPrefix(n, sha)|] == ShaPrefix(n, sha);
    assert path[..|p|] == p && path[|p|..] == sha + "/" + name;
    UnderNumber(path, n);
    CutJoined(sha, name);
  }

  lemma FixedAreOutside(path: string)
    ensures StartsWith(path, ROOT) ==> path !in {STATE, NO_JEKYLL, LISTING}
  {
    if StartsWith(path, ROOT) {
      assert path[..8][5] == 'p' && path[..8][6] == 'r';
      assert LISTING[5] == 'i' && NO_JEKYLL[5] == '.' && STATE[5] == '.';
    }
  }
}
