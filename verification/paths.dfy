/** Package-path normalisation (`normalizePath`, server/server.go): the key under
    which every job, record and page is filed. Two regular languages drive it:
    `gistWithUsername` drops the owner (and any trailing path) from a gist URL,
    and `githubUsername` recognises a bare GitHub owner as a first segment, which
    then gets the `github.com/` host prepended. */
module Paths {
  import opened Wrappers
  import opened Strings

  const GistHost := "gist.github.com"
  const GistPrefix := "gist.github.com/"
  const GithubPrefix := "github.com/"

  /** A non-empty run of characters of one class: the regex `[...]+`. */
  predicate IsRun(s: string, ok: char -> bool) {
    1 <= |s| && forall i :: 0 <= i < |s| ==> ok(s[i])
  }

  predicate IsAsciiAlnum(c: char) {
    'A' <= c <= 'Z' || 'a' <= c <= 'z' || '0' <= c <= '9'
  }

  /** `[A-Za-z0-9_.\-]`: the gist owner segment. */
  predicate IsOwnerChar(c: char) {
    IsAsciiAlnum(c) || c == '_' || c == '.' || c == '-'
  }

  /** `[a-f0-9]`: the gist id, the one capture group. */
  predicate IsGistIdChar(c: char) {
    '0' <= c <= '9' || 'a' <= c <= 'f'
  }

  /** `[\p{L}0-9_.\-]`: a trailing gist segment. `letter` stands for Unicode's
      letter category `\p{L}`, which never holds of '/'. */
  predicate IsTailChar(letter: char -> bool, c: char) {
    (letter(c) && c != '/') || '0' <= c <= '9' || c == '_' || c == '.' || c == '-'
  }

  /** `/[\p{L}0-9_.\-]+` without its slash: one trailing gist segment. */
  predicate IsTailSegment(letter: char -> bool, s: string) {
    1 <= |s| && forall i :: 0 <= i < |s| ==> IsTailChar(letter, s[i])
  }

  /** `githubUsername`, `^[a-zA-Z0-9\-]{0,38}$`: the empty string matches too. */
  predicate IsGithubUsername(s: string) {
    |s| <= 38 && forall i :: 0 <= i < |s| ==> IsAsciiAlnum(s[i]) || s[i] == '-'
  }

  /** `gistWithUsername`'s first capture group, when the whole path matches
      `^gist\.github\.com/[A-Za-z0-9_.\-]+/([a-f0-9]+)(/[\p{L}0-9_.\-]+)*$`.
      None of the three classes holds '/', so the text after the host matches
      exactly when its '/'-separated pieces are: an owner, an id, then any
      number of tail segments, none of them empty. */
  function GistId(letter: char -> bool, path: string): (id: Option<string>)
    ensures id.Some? ==> HasPrefix(path, GistPrefix) && IsRun(id.value, IsGistIdChar)
  {
    if !HasPrefix(path, GistPrefix) then None
    else
      var segs := Split(path[|GistPrefix|..], '/');
      if 2 <= |segs| && IsRun(segs[0], IsOwnerChar) && IsRun(segs[1], IsGistIdChar)
         && forall i :: 2 <= i < |segs| ==> IsTailSegment(letter, segs[i])
      then Some(segs[1])
      else None
  }

  /** `normalizePath`. */
  function Normalize(letter: char -> bool, path: string): (r: string)
    ensures || r == path
            || r == GithubPrefix + path
            || (HasPrefix(path, GistPrefix) && HasPrefix(r, GistPrefix) && IsRun(r[|GistPrefix|..], IsGistIdChar))
  {
    match GistId(letter, path)
    case Some(id) =>
      assert (GistPrefix + id)[|GistPrefix|..] == id;
      GistPrefix + id
    case None =>
      match IndexOf(path, '/')
      case None => path
      case Some(i) =>
        var first := path[..i];
        if '.' !in first && IsGithubUsername(first) then GithubPrefix + path else path
  }

  /** The first '/' of `first + "/" + rest` is the one after `first`. */
  lemma FirstSlash(first: string, rest: string)
    requires '/' !in first
    ensures IndexOf(first + "/" + rest, '/') == Some(|first|)
    ensures (first + "/" + rest)[..|first|] == first
  {
    var path := first + "/" + rest;
    assert path[|first|] == '/';
    assert path[..|first|] == first;
    var i := IndexOf(path, '/').value;
    assert i == |first|;
  }

  /** A path starts with `host + "/"` exactly when its first segment is `host`. */
  lemma {:induction false} PrefixBySegment(first: string, rest: string, host: string)
    requires '/' !in first && '/' !in host
    ensures HasPrefix(first + "/" + rest, host + "/") <==> first == host
  {
    var path := first + "/" + rest;
    FirstSlash(first, rest);
    if HasPrefix(path, host + "/") {
      FirstSlash(host, path[|host| + 1..]);
      assert path == host + "/" + path[|host| + 1..];
    }
  }

  /** Only a path whose first segment is the gist host can match the gist pattern. */
  lemma GistNeedsGistHost(letter: char -> bool, first: string, rest: string)
    requires '/' !in first && first != GistHost
    ensures GistId(letter, first + "/" + rest).None?
  {
    PrefixBySegment(first, rest, GistHost);
  }

  /** A bare first segment that matches `githubUsername` and has no '.' gets the
      `github.com/` host in front of the whole path. */
  lemma GithubPrefixAdded(letter: char -> bool, first: string, rest: string)
    requires '/' !in first && '.' !in first && IsGithubUsername(first)
    ensures Normalize(letter, first + "/" + rest) == GithubPrefix + first + "/" + rest
  {
    assert first != GistHost by { assert GistHost[4] == '.'; }
    GistNeedsGistHost(letter, first, rest);
    FirstSlash(first, rest);
  }

  /** A first segment that is not a GitHub owner leaves a non-gist path as it is. */
  lemma NotUsernameUnchanged(letter: char -> bool, first: string, rest: string)
    requires '/' !in first && !IsGithubUsername(first) && first != GistHost
    ensures Normalize(letter, first + "/" + rest) == first + "/" + rest
  {
    GistNeedsGistHost(letter, first, rest);
    FirstSlash(first, rest);
  }

  /** A dotted first segment (a host name) leaves the path as it is, unless the
      path is a gist URL the gist pattern rewrites. */
  lemma DottedUnchanged(letter: char -> bool, first: string, rest: string)
    requires '/' !in first && '.' in first
    requires GistId(letter, first + "/" + rest).None?
    ensures Normalize(letter, first + "/" + rest) == first + "/" + rest
  {
    FirstSlash(first, rest);
  }

  /** Without a '/' there is no first segment to examine: the path is unchanged. */
  lemma NoSlashUnchanged(letter: char -> bool, path: string)
    requires '/' !in path
    ensures Normalize(letter, path) == path
  {
    assert !HasPrefix(path, GistPrefix) by {
      if |GistPrefix| <= |path| {
        assert path[..|GistPrefix|][15] == path[15];
      }
    }
  }

  /** The pieces of a matching gist path, as the gist pattern reads them. */
  predicate GistParts(letter: char -> bool, parts: seq<string>) {
    && 2 <= |parts|
    && IsRun(parts[0], IsOwnerChar)
    && IsRun(parts[1], IsGistIdChar)
    && forall i :: 2 <= i < |parts| ==> IsTailSegment(letter, parts[i])
  }

  lemma GistPartsNoSlash(letter: char -> bool, parts: seq<string>)
    requires GistParts(letter, parts)
    ensures forall i :: 0 <= i < |parts| ==> '/' !in parts[i]
  {
    forall i | 0 <= i < |parts|
      ensures '/' !in parts[i]
    {
      if i >= 2 {
        assert IsTailSegment(letter, parts[i]);
      }
    }
  }

  lemma GistIdOfParts(letter: char -> bool, parts: seq<string>)
    requires GistParts(letter, parts)
    ensures GistId(letter, GistPrefix + Join(parts, '/')) == Some(parts[1])
  {
    var path := GistPrefix + Join(parts, '/');
    GistPartsNoSlash(letter, parts);
    SplitJoin(parts, '/');
    assert path[..|GistPrefix|] == GistPrefix;
    assert path[|GistPrefix|..] == Join(parts, '/');
  }

  /** The converse of GistIdOfParts: a path yields a gist id only when it is
      exactly `gist.github.com/<owner>/<id>(/<segment>)*`, so an empty owner, a
      missing id or an empty trailing segment gives none. */
  lemma GistIdShape(letter: char -> bool, path: string)
    requires GistId(letter, path).Some?
    ensures exists owner: string, tail: seq<string> ::
      && GistParts(letter, [owner, GistId(letter, path).value] + tail)
      && path == GistPrefix + Join([owner, GistId(letter, path).value] + tail, '/')
  {
    var rest := path[|GistPrefix|..];
    var segs := Split(rest, '/');
    JoinSplit(rest, '/');
    assert path == GistPrefix + rest;
    var owner, tail := segs[0], segs[2..];
    assert segs == [owner, segs[1]] + tail;
    assert GistParts(letter, [owner, GistId(letter, path).value] + tail);
  }

  lemma GistPartsOf(letter: char -> bool, owner: string, id: string, tail: seq<string>)
    requires IsRun(owner, IsOwnerChar) && IsRun(id, IsGistIdChar)
    requires forall i :: 0 <= i < |tail| ==> IsTailSegment(letter, tail[i])
    ensures GistParts(letter, [owner, id] + tail)
  {
    var parts := [owner, id] + tail;
    forall i | 2 <= i < |parts|
      ensures IsTailSegment(letter, parts[i])
    {
      assert parts[i] == tail[i - 2];
    }
  }

  /** `gist.github.com/<owner>/<id>(/<segment>)*` collapses to
      `gist.github.com/<id>`: the owner and every trailing segment are dropped. */
  lemma GistCollapse(letter: char -> bool, owner: string, id: string, tail: seq<string>)
    requires IsRun(owner, IsOwnerChar) && IsRun(id, IsGistIdChar)
    requires forall i :: 0 <= i < |tail| ==> IsTailSegment(letter, tail[i])
    ensures Normalize(letter, GistPrefix + Join([owner, id] + tail, '/')) == GistPrefix + id
  {
    GistPartsOf(letter, owner, id, tail);
    GistIdOfParts(letter, [owner, id] + tail);
  }

  /** Normalising twice is normalising once: a normalised key is a fixed point. */
  lemma NormalizeIdempotent(letter: char -> bool, path: string)
    ensures Normalize(letter, Normalize(letter, path)) == Normalize(letter, path)
  {
    var r := Normalize(letter, path);
    match GistId(letter, path)
    case Some(id) =>
      var segs := Split(path[|GistPrefix|..], '/');
      assert id == segs[1];
      assert '/' !in id;
      assert r == GistHost + "/" + id;
      assert r[|GistPrefix|..] == id;
      assert Split(id, '/') == [id];
      assert GistId(letter, r).None?;
      DottedUnchanged(letter, GistHost, id);
    case None =>
      if r != path {
        assert r == GithubPrefix + path;
        var host := "github.com";
        assert r == host + "/" + path;
        assert host != GistHost;
        assert host[6] == '.';
        GistNeedsGistHost(letter, host, path);
        DottedUnchanged(letter, host, path);
      }
  }
}
