// The Bot API server configuration (telers/src/client/telegram.rs, and its
// older form src/client/telegram.rs): URL templates with `{token}`,
// `{method_name}` and `{path}` placeholders, filled in by `str::replace`,
// and the wrappers that translate file paths between the server and the
// local machine.

/** What both generations share: `trim_end_matches` of one character and
    `str::replace` of a pattern. */
module UrlTemplate {

  /** `trim_end_matches(c)`: every trailing `c` removed. */
  function TrimEndMatches(s: string, c: char): (r: string)
    ensures |r| <= |s| && r == s[..|r|]
    ensures |r| > 0 ==> r[|r| - 1] != c
    ensures forall i | |r| <= i < |s| :: s[i] == c
    ensures (|s| == 0 || s[|s| - 1] != c) ==> r == s
    decreases |s|
  {
    if |s| > 0 && s[|s| - 1] == c then TrimEndMatches(s[..|s| - 1], c) else s
  }

  /** A trailing `c` makes no difference. */
  lemma TrimEndMatchesIgnoresTrailing(s: string, c: char)
    ensures TrimEndMatches(s + [c], c) == TrimEndMatches(s, c)
  {
    assert (s + [c])[..|s|] == s;
  }

  /** Trimming twice is trimming once. */
  lemma TrimEndMatchesIdempotent(s: string, c: char)
    ensures TrimEndMatches(TrimEndMatches(s, c), c) == TrimEndMatches(s, c)
  {
  }

  /** `str::replace` with a non-empty pattern: every occurrence, found left
      to right without overlapping, replaced by `rep`; what the replacement
      writes is not searched again. */
  function ReplaceAll(s: string, pat: string, rep: string): (r: string)
    requires |pat| > 0
    ensures pat[0] !in s ==> r == s
    decreases |s|
  {
    if |s| < |pat| then s
    else if s[..|pat|] == pat then rep + ReplaceAll(s[|pat|..], pat, rep)
    else [s[0]] + ReplaceAll(s[1..], pat, rep)
  }

  /** A text shorter than the pattern holds no occurrence. */
  lemma ReplaceAllShort(s: string, pat: string, rep: string)
    requires 0 < |pat| && |s| < |pat|
    ensures ReplaceAll(s, pat, rep) == s
  {
  }

  /** A text whose first character cannot begin an occurrence keeps it. */
  lemma ReplaceAllKeepsFirst(s: string, pat: string, rep: string)
    requires 0 < |pat| <= |s| && s[0] != pat[0]
    ensures ReplaceAll(s, pat, rep) == [s[0]] + ReplaceAll(s[1..], pat, rep)
  {
    assert s[..|pat|][0] != pat[0];
  }

  /** A start that cannot begin an occurrence is copied as it is. */
  lemma {:induction false} ReplaceAllPlainPrefix(a: string, b: string, pat: string, rep: string)
    requires |pat| > 0 && pat[0] !in a
    ensures ReplaceAll(a + b, pat, rep) == a + ReplaceAll(b, pat, rep)
    decreases |a|
  {
    var s := a + b;
    if |a| == 0 {
      assert s == b;
    } else if |s| < |pat| {
      ReplaceAllShort(s, pat, rep);
      ReplaceAllShort(b, pat, rep);
    } else {
      var tail := a[1..];
      assert s[0] == a[0] && s[1..] == tail + b;
      assert pat[0] !in tail by {
        forall i | 0 <= i < |tail| ensures tail[i] != pat[0] {
          assert tail[i] == a[i + 1];
        }
      }
      ReplaceAllKeepsFirst(s, pat, rep);
      ReplaceAllPlainPrefix(tail, b, pat, rep);
      assert [a[0]] + tail == a;
    }
  }

  /** An occurrence at the start is replaced, and the search goes on after it. */
  lemma ReplaceAllAtPattern(pat: string, b: string, rep: string)
    requires |pat| > 0
    ensures ReplaceAll(pat + b, pat, rep) == rep + ReplaceAll(b, pat, rep)
  {
    assert (pat + b)[..|pat|] == pat;
    assert (pat + b)[|pat|..] == b;
  }

  /** A text that does not start with the pattern, and holds the pattern's
      first character nowhere else, is kept. */
  lemma ReplaceAllNoMatch(s: string, pat: string, rep: string)
    requires |pat| >= 2 && |s| >= 2 && pat[0] !in s[1..] && s[1] != pat[1]
    ensures ReplaceAll(s, pat, rep) == s
  {
    if |s| >= |pat| {
      assert s[..|pat|][1] != pat[1];
      assert s == [s[0]] + s[1..];
    }
  }

  /** The first placeholder of a template, opening with '{' that nothing
      before it holds, is filled in; the rest is kept when '{' opens only
      the second placeholder, which differs from the first in its second
      character. */
  lemma FillFirst(p: string, pa: string, m: string, pb: string, q: string, a: string)
    requires |pa| >= 2 && |pb| >= 2 && pa[0] == '{' && pb[0] == '{' && pa[1] != pb[1]
    requires '{' !in pb[1..] && '{' !in p && '{' !in m && '{' !in q
    ensures ReplaceAll(p + (pa + (m + (pb + q))), pa, a) == (p + a + m) + (pb + q)
  {
    var tail := pb + q;
    assert tail[1..] == pb[1..] + q;
    ReplaceAllNoMatch(tail, pa, a);
    ReplaceAllPlainPrefix(m, tail, pa, a);
    ReplaceAllAtPattern(pa, m + tail, a);
    ReplaceAllPlainPrefix(p, pa + (m + tail), pa, a);
    assert p + (a + (m + tail)) == (p + a + m) + tail;
  }

  lemma FillSecond(filled: string, pb: string, q: string, b: string)
    requires |pb| >= 1 && pb[0] == '{' && '{' !in filled && '{' !in q
    ensures ReplaceAll(filled + (pb + q), pb, b) == filled + (b + q)
  {
    ReplaceAllAtPattern(pb, q, b);
    ReplaceAllPlainPrefix(filled, pb + q, pb, b);
  }

  /** A template `p` `pa` `m` `pb` `q` whose placeholders both open with '{',
      which the rest of the template and the first value do not hold, is
      filled in by replacing `pa` and then `pb`. */
  lemma FillTwo(p: string, pa: string, m: string, pb: string, q: string, a: string, b: string)
    requires |pa| >= 2 && |pb| >= 2 && pa[0] == '{' && pb[0] == '{' && pa[1] != pb[1]
    requires '{' !in pb[1..]
    requires '{' !in p && '{' !in m && '{' !in q && '{' !in a
    ensures ReplaceAll(ReplaceAll(p + (pa + (m + (pb + q))), pa, a), pb, b) == (p + a + m) + (b + q)
  {
    FillFirst(p, pa, m, pb, q, a);
    FillSecond(p + a + m, pb, q, b);
  }

  /** A text that is the pattern is replaced whole. */
  lemma ReplaceAllWhole(pat: string, rep: string)
    requires |pat| > 0
    ensures ReplaceAll(pat, pat, rep) == rep
  {
    assert pat[..|pat|] == pat;
    assert pat[|pat|..] == [];
  }

  /** A placeholder standing twice, with `sep` between, is filled in
      twice. */
  lemma FillTwice(p: string, pb: string, sep: string, b: string)
    requires |pb| >= 1 && pb[0] == '{' && '{' !in p && '{' !in sep
    ensures ReplaceAll(p + (pb + (sep + pb)), pb, b) == p + (b + (sep + b))
  {
    ReplaceAllWhole(pb, b);
    ReplaceAllPlainPrefix(sep, pb, pb, b);
    ReplaceAllAtPattern(pb, sep + pb, b);
    ReplaceAllPlainPrefix(p, pb + (sep + pb), pb, b);
  }

  /** Filling in `pa` with the second placeholder `pb` itself, then `pb`:
      the second value stands in both places. */
  lemma FillPlaceholderWithPlaceholder(p: string, pa: string, sep: string, pb: string, b: string)
    requires |pa| >= 2 && |pb| >= 2 && pa[0] == '{' && pb[0] == '{' && pa[1] != pb[1]
    requires '{' !in pb[1..] && '{' !in p && '{' !in sep
    ensures ReplaceAll(ReplaceAll(p + (pa + (sep + pb)), pa, pb), pb, b) == p + (b + (sep + b))
  {
    assert pa[0] !in pb[1..];
    ReplaceAllNoMatch(pb, pa, pb);
    ReplaceAllPlainPrefix(sep, pb, pa, pb);
    ReplaceAllAtPattern(pa, sep + pb, pb);
    ReplaceAllPlainPrefix(p, pa + (sep + pb), pa, pb);
    FillTwice(p, pb, sep, b);
  }
}

/** telers/src/client/telegram.rs. */
module ClientTelegram {
  import opened Wrappers
  import opened UrlTemplate
  import opened FsPath

  /** `FilesPathWrapper`s: `BareFilesPathWrapper`, and
      `FilesDiffPathWrapper` with the server and local base paths. */
  datatype FilesPathWrapper =
    | BareFilesPathWrapper
    | FilesDiffPathWrapper(serverPath: Path, localPath: Path)

  /** `diff_paths(path, base)`, the relative path that leads from `base` to
      `path`, comes from a library and is a parameter. */
  type DiffPaths = (Path, Path) -> Option<Path>

  function ToLocal(w: FilesPathWrapper, diff: DiffPaths, path: Path): (r: Option<Path>)
    ensures w.BareFilesPathWrapper? ==> r == Some(path)
    ensures w.FilesDiffPathWrapper? ==>
      (r.Some? <==> diff(path, w.serverPath).Some?)
      && (r.Some? ==> r.value == Join(w.localPath, diff(path, w.serverPath).value))
  {
    match w
    case BareFilesPathWrapper => Some(path)
    case FilesDiffPathWrapper(server, local) =>
      match diff(path, server)
      case None => None
      case Some(relative) => Some(Join(local, relative))
  }

  function ToServer(w: FilesPathWrapper, diff: DiffPaths, path: Path): (r: Option<Path>)
    ensures w.BareFilesPathWrapper? ==> r == Some(path)
    ensures w.FilesDiffPathWrapper? ==>
      (r.Some? <==> diff(path, w.localPath).Some?)
      && (r.Some? ==> r.value == Join(w.serverPath, diff(path, w.localPath).value))
  {
    match w
    case BareFilesPathWrapper => Some(path)
    case FilesDiffPathWrapper(server, local) =>
      match diff(path, local)
      case None => None
      case Some(relative) => Some(Join(server, relative))
  }

  /** What `diff_paths` promises for a path below the base: the relative
      rest of it. */
  ghost predicate DiffsBelow(diff: DiffPaths)
  {
    forall base: Path, rel: Path {:trigger diff(Join(base, rel), base)} ::
      !rel.absolute ==> diff(Join(base, rel), base) == Some(rel)
  }

  /** A server path below the server base comes back unchanged from the
      local machine, and the local path lies below the local base. */
  lemma FilesDiffRoundTrip(diff: DiffPaths, server: Path, local: Path, rel: Path)
    requires DiffsBelow(diff) && !rel.absolute
    ensures var w := FilesDiffPathWrapper(server, local);
      ToLocal(w, diff, Join(server, rel)) == Some(Join(local, rel))
      && ToServer(w, diff, Join(local, rel)) == Some(Join(server, rel))
  {
    assert diff(Join(server, rel), server) == Some(rel);
    assert diff(Join(local, rel), local) == Some(rel);
  }

  /** `APIServer`. */
  datatype APIServer = APIServer(
    baseUrl: string,
    filesUrl: string,
    isLocal: bool,
    filesPathWrapper: FilesPathWrapper)

  /** `APIServer::new`: both URL templates lose their trailing slashes. */
  function New(baseUrl: string, filesUrl: string, isLocal: bool, w: FilesPathWrapper): (s: APIServer)
    ensures |s.baseUrl| <= |baseUrl| && s.baseUrl == baseUrl[..|s.baseUrl|] && (|s.baseUrl| > 0 ==> s.baseUrl[|s.baseUrl| - 1] != '/')
    ensures forall i | |s.baseUrl| <= i < |baseUrl| :: baseUrl[i] == '/'
    ensures |s.filesUrl| <= |filesUrl| && s.filesUrl == filesUrl[..|s.filesUrl|] && (|s.filesUrl| > 0 ==> s.filesUrl[|s.filesUrl| - 1] != '/')
    ensures forall i | |s.filesUrl| <= i < |filesUrl| :: filesUrl[i] == '/'
    ensures s.isLocal == isLocal && s.filesPathWrapper == w
  {
    APIServer(TrimEndMatches(baseUrl, '/'), TrimEndMatches(filesUrl, '/'), isLocal, w)
  }

  /** A trailing slash on a template is the same server. */
  lemma NewIgnoresTrailingSlash(baseUrl: string, filesUrl: string, isLocal: bool, w: FilesPathWrapper)
    ensures New(baseUrl + "/", filesUrl + "/", isLocal, w) == New(baseUrl, filesUrl, isLocal, w)
  {
    TrimEndMatchesIgnoresTrailing(baseUrl, '/');
    TrimEndMatchesIgnoresTrailing(filesUrl, '/');
  }

  /** `api_url`: `{token}` filled in first, then `{method_name}`. */
  function ApiUrl(s: APIServer, token: string, methodName: string): (r: string)
    ensures '{' !in s.baseUrl ==> r == s.baseUrl
  {
    ReplaceAll(ReplaceAll(s.baseUrl, "{token}", token), "{method_name}", methodName)
  }

  /** `file_url`: `{token}` filled in first, then `{path}`. */
  function FileUrl(s: APIServer, token: string, path: string): (r: string)
    ensures '{' !in s.filesUrl ==> r == s.filesUrl
  {
    ReplaceAll(ReplaceAll(s.filesUrl, "{token}", token), "{path}", path)
  }

  const API_PREFIX := "https://api.telegram.org/bot"
  const FILE_PREFIX := "https://api.telegram.org/file/bot"
  const TOKEN := "{token}"
  const METHOD_NAME := "{method_name}"
  const PATH := "{path}"

  /** The production templates, and the test ones with `/test` before the
      method or path. */
  function ApiTemplate(test: bool): string {
    API_PREFIX + TOKEN + (if test then "/test/" else "/") + METHOD_NAME
  }

  function FileTemplate(test: bool): string {
    FILE_PREFIX + TOKEN + (if test then "/test/" else "/") + PATH
  }

  /** `Default` (and `PRODUCTION`) and `TEST`: the templates, not local,
      the bare wrapper. */
  function Server(test: bool): (s: APIServer)
    ensures s.baseUrl == ApiTemplate(test) && s.filesUrl == FileTemplate(test)
    ensures !s.isLocal && s.filesPathWrapper == BareFilesPathWrapper
  {
    var api, file := ApiTemplate(test), FileTemplate(test);
    assert api[|api| - 1] == '}' && file[|file| - 1] == '}';
    New(api, file, false, BareFilesPathWrapper)
  }

  function Default(): APIServer {
    Server(false)
  }

  function Test(): APIServer {
    Server(true)
  }

  lemma PrefixesArePlain()
    ensures '{' !in API_PREFIX && '{' !in FILE_PREFIX
    ensures '{' !in "/" && '{' !in "/test/" && '{' !in ""
  {
  }

  /** The URL of a method: the token and the method name in their places. */
  lemma ServerApiUrl(test: bool, token: string, methodName: string)
    requires '{' !in token
    ensures ApiUrl(Server(test), token, methodName)
         == API_PREFIX + token + (if test then "/test/" else "/") + methodName
  {
    PrefixesArePlain();
    var sep := if test then "/test/" else "/";
    assert API_PREFIX + (TOKEN + (sep + (METHOD_NAME + ""))) == ApiTemplate(test);
    assert '{' !in TOKEN[1..] && '{' !in METHOD_NAME[1..];
    FillTwo(API_PREFIX, TOKEN, sep, METHOD_NAME, "", token, methodName);
    assert (API_PREFIX + token + sep) + (methodName + "") == API_PREFIX + token + sep + methodName;
  }

  /** The URL of a file: the token and the path in their places. */
  lemma ServerFileUrl(test: bool, token: string, path: string)
    requires '{' !in token
    ensures FileUrl(Server(test), token, path)
         == FILE_PREFIX + token + (if test then "/test/" else "/") + path
  {
    PrefixesArePlain();
    var sep := if test then "/test/" else "/";
    assert '{' !in TOKEN[1..] && '{' !in PATH[1..];
    FillTwo(FILE_PREFIX, TOKEN, sep, PATH, "", token, path);
    assert FILE_PREFIX + (TOKEN + (sep + (PATH + ""))) == FileTemplate(test);
    assert (FILE_PREFIX + token + sep) + (path + "") == FILE_PREFIX + token + sep + path;
  }

  /** The token is filled in before the method name, so a token that
      holds `{method_name}` has it filled in too: with the default
      template, the method name then stands in both places. */
  lemma TokenFilledFirst(s: APIServer, p: string, methodName: string)
    requires s.baseUrl == p + TOKEN + "/" + METHOD_NAME && '{' !in p
    ensures ApiUrl(s, METHOD_NAME, methodName) == p + methodName + "/" + methodName
  {
    var sep := "/";
    var template := p + (TOKEN + (sep + METHOD_NAME));
    assert '{' !in sep && '{' !in METHOD_NAME[1..];
    assert s.baseUrl == template;
    FillPlaceholderWithPlaceholder(p, TOKEN, sep, METHOD_NAME, methodName);
    calc {
      ApiUrl(s, METHOD_NAME, methodName);
      ReplaceAll(ReplaceAll(template, TOKEN, METHOD_NAME), METHOD_NAME, methodName);
      p + (methodName + (sep + methodName));
      { Regroup(p, methodName, sep, methodName); }
      p + methodName + sep + methodName;
    }
  }

  lemma Regroup(a: string, b: string, c: string, d: string)
    ensures a + (b + (c + d)) == a + b + c + d
  {
  }

  lemma DefaultTemplateShape()
    ensures Default().baseUrl == API_PREFIX + TOKEN + "/" + METHOD_NAME
  {
  }
}

/** src/client/telegram.rs: the older server configuration, whose path
    wrappers always answer. */
module SrcClientTelegram {
  import opened Wrappers
  import opened UrlTemplate
  import opened FsPath
  import ClientTelegram

  /** `BareFilesPathWrapper` and `SimpleFilesPathWrapper`. */
  datatype FilesPathWrapper =
    | BareFilesPathWrapper
    | SimpleFilesPathWrapper(serverPath: Path, localPath: Path)

  /** `SimpleFilesPathWrapper::resolve` as written: `base2.join(base1.join(path))`. */
  function Resolve(base1: Path, base2: Path, path: Path): (r: Path)
    ensures base1.absolute || path.absolute ==> r == Join(base1, path)
  {
    Join(base2, Join(base1, path))
  }

  /** `to_local` and `to_server` as written. */
  function ToLocalAsWritten(w: FilesPathWrapper, path: Path): (r: Path)
    ensures w.BareFilesPathWrapper? ==> r == path
  {
    match w
    case BareFilesPathWrapper => path
    case SimpleFilesPathWrapper(server, local) => Resolve(server, local, path)
  }

  function ToServerAsWritten(w: FilesPathWrapper, path: Path): (r: Path)
    ensures w.BareFilesPathWrapper? ==> r == path
  {
    match w
    case BareFilesPathWrapper => path
    case SimpleFilesPathWrapper(server, local) => Resolve(local, server, path)
  }

  /** With an absolute server base the local base is never used: an
      absolute path is returned as it is, a relative one is put below the
      server base. */
  lemma ToLocalIgnoresLocalBase(server: Path, local: Path, path: Path)
    requires server.absolute
    ensures ToLocalAsWritten(SimpleFilesPathWrapper(server, local), path) == Join(server, path)
  {
  }

  /** The path of the later generation's test: the file below the server's
      data directory stays where it is instead of moving below the local
      one. */
  lemma SimpleWrapperCounterexample()
    ensures var server := Path(true, ["etc", "telegram-bot-api", "data"]);
      var local := Path(true, ["opt", "app", "data"]);
      ToLocalAsWritten(SimpleFilesPathWrapper(server, local), Path(true, ["etc", "telegram-bot-api", "data", "test_path"]))
      == Path(true, ["etc", "telegram-bot-api", "data", "test_path"])
      != Path(true, ["opt", "app", "data", "test_path"])
  {
    var p := Path(true, ["etc", "telegram-bot-api", "data", "test_path"]);
    assert p.parts[0] != "opt";
  }

  /** The relative rest of `path` below `base`, when `path` lies below it. */
  function Below(path: Path, base: Path): (r: Option<Path>)
    ensures r.Some? ==> !r.value.absolute && Join(base, r.value) == path
  {
    if path.absolute == base.absolute && |base.parts| <= |path.parts| && path.parts[..|base.parts|] == base.parts
    then Some(Path(false, path.parts[|base.parts|..]))
    else None
  }

  /** Every relative path below the base is found again. */
  lemma BelowJoin(base: Path, rel: Path)
    requires !rel.absolute
    ensures Below(Join(base, rel), base) == Some(rel)
  {
    var path := Join(base, rel);
    assert path.parts[..|base.parts|] == base.parts;
    assert path.parts[|base.parts|..] == rel.parts;
  }

  /** What the wrapper is for: a path below one base moves below the other;
      a path below neither is kept. */
  function ToLocal(w: FilesPathWrapper, path: Path): (r: Path)
    ensures w.BareFilesPathWrapper? ==> r == path
  {
    match w
    case BareFilesPathWrapper => path
    case SimpleFilesPathWrapper(server, local) =>
      match Below(path, server)
      case Some(rel) => Join(local, rel)
      case None => path
  }

  function ToServer(w: FilesPathWrapper, path: Path): (r: Path)
    ensures w.BareFilesPathWrapper? ==> r == path
  {
    match w
    case BareFilesPathWrapper => path
    case SimpleFilesPathWrapper(server, local) =>
      match Below(path, local)
      case Some(rel) => Join(server, rel)
      case None => path
  }

  /** A file below the server base moves below the local base, and back. */
  lemma SimpleRoundTrip(server: Path, local: Path, rel: Path)
    requires !rel.absolute
    ensures var w := SimpleFilesPathWrapper(server, local);
      ToLocal(w, Join(server, rel)) == Join(local, rel)
      && ToServer(w, ToLocal(w, Join(server, rel))) == Join(server, rel)
  {
    BelowJoin(server, rel);
    BelowJoin(local, rel);
  }

  datatype APIServer = APIServer(
    baseUrl: string,
    filesUrl: string,
    isLocal: bool,
    filesPathWrapper: FilesPathWrapper)

  /** `APIServer::new`: trailing slashes trimmed, as in the later one. */
  function New(baseUrl: string, filesUrl: string, isLocal: bool, w: FilesPathWrapper): (s: APIServer)
    ensures |s.baseUrl| <= |baseUrl| && s.baseUrl == baseUrl[..|s.baseUrl|] && (|s.baseUrl| > 0 ==> s.baseUrl[|s.baseUrl| - 1] != '/')
    ensures forall i | |s.baseUrl| <= i < |baseUrl| :: baseUrl[i] == '/'
    ensures |s.filesUrl| <= |filesUrl| && s.filesUrl == filesUrl[..|s.filesUrl|] && (|s.filesUrl| > 0 ==> s.filesUrl[|s.filesUrl| - 1] != '/')
    ensures forall i | |s.filesUrl| <= i < |filesUrl| :: filesUrl[i] == '/'
    ensures s.isLocal == isLocal && s.filesPathWrapper == w
  {
    APIServer(TrimEndMatches(baseUrl, '/'), TrimEndMatches(filesUrl, '/'), isLocal, w)
  }

  function ApiUrl(s: APIServer, token: string, methodName: string): (r: string)
    ensures '{' !in s.baseUrl ==> r == s.baseUrl
  {
    ReplaceAll(ReplaceAll(s.baseUrl, "{token}", token), "{method_name}", methodName)
  }

  function FileUrl(s: APIServer, token: string, path: string): (r: string)
    ensures '{' !in s.filesUrl ==> r == s.filesUrl
  {
    ReplaceAll(ReplaceAll(s.filesUrl, "{token}", token), "{path}", path)
  }

  /** `Default` (and `PRODUCTION`) and `TEST`: the same templates as the
      later generation. */
  function Server(test: bool): (s: APIServer)
    ensures s.baseUrl == ClientTelegram.ApiTemplate(test) && s.filesUrl == ClientTelegram.FileTemplate(test)
    ensures !s.isLocal && s.filesPathWrapper == BareFilesPathWrapper
  {
    var api, file := ClientTelegram.ApiTemplate(test), ClientTelegram.FileTemplate(test);
    assert api[|api| - 1] == '}' && file[|file| - 1] == '}';
    New(api, file, false, BareFilesPathWrapper)
  }

  /** Both generations build the same URLs from the same templates. */
  lemma SameUrlsAsLater(baseUrl: string, filesUrl: string, isLocal: bool, token: string, name: string)
    ensures var s := New(baseUrl, filesUrl, isLocal, BareFilesPathWrapper);
      var t := ClientTelegram.New(baseUrl, filesUrl, isLocal, ClientTelegram.BareFilesPathWrapper);
      ApiUrl(s, token, name) == ClientTelegram.ApiUrl(t, token, name)
      && FileUrl(s, token, name) == ClientTelegram.FileUrl(t, token, name)
  {
  }

  /** The default and test servers' URLs. */
  lemma ServerUrls(test: bool, token: string, name: string)
    requires '{' !in token
    ensures ApiUrl(Server(test), token, name)
         == ClientTelegram.API_PREFIX + token + (if test then "/test/" else "/") + name
    ensures FileUrl(Server(test), token, name)
         == ClientTelegram.FILE_PREFIX + token + (if test then "/test/" else "/") + name
  {
    ClientTelegram.ServerApiUrl(test, token, name);
    ClientTelegram.ServerFileUrl(test, token, name);
  }
}
