/**
 * Pane context (src/context.rs): the pending-request record, the parsing of
 * the helper's `"cwd|branch"` output, and the folder name shown for a
 * working directory.
 */
module Context {
  import opened Wrappers
  import opened Text

  /** Rust's `i32`. */
  newtype int32 = x: int | -0x8000_0000 <= x < 0x8000_0000

  /** A pending request for the context of the terminal process `pid`. */
  datatype ContextRequest = ContextRequest(pid: int32) {

    /** `ContextRequest::new`: the request remembers the process it is about. */
    static function New(pid: int32): (r: ContextRequest)
      ensures r.Pid() == pid
    {
      ContextRequest(pid)
    }

    /** `ContextRequest::pid`: the process id is all a request holds, so it rebuilds the request. */
    function Pid(): (p: int32)
      ensures this == ContextRequest(p)
    {
      pid
    }
  }

  /**
   * A name that `Path::file_name` can return: non-empty, free of `/`, and
   * neither of the special components `.` and `..`.
   */
  predicate IsComponentName(n: string) {
    n != [] && '/' !in n && n != "." && n != ".."
  }

  /** No `/` in `s` is the same as `"/"` occurring nowhere in `s`. */
  lemma SlashAbsent(s: string)
    ensures '/' !in s <==> forall j: nat :: !OccursAt(s, "/", j)
  {
    if '/' in s {
      var k :| 0 <= k < |s| && s[k] == '/';
      assert OccursAt(s, "/", k);
    } else {
      forall j: nat
        ensures !OccursAt(s, "/", j)
      {
        if j < |s| {
          assert s[j..j + 1] == [s[j]];
        }
      }
    }
  }

  /**
   * `Path::file_name` for Unix paths: the last component, where empty
   * components (repeated or trailing `/`) and `.` components are skipped.
   * There is none when the path ends in `..`, or when it has no normal
   * component at all (the empty path, `/`, `.`).
   */
  function FileName(path: string): (r: Option<string>)
    ensures r.Some? ==> IsComponentName(r.value)
    decreases |path|
  {
    match LastIndexOf(path, "/")
    case None =>
      SlashAbsent(path);
      if IsComponentName(path) then Some(path) else None
    case Some(i) =>
      var last := path[i + 1..];
      if last == [] || last == "." then FileName(path[..i])
      else if last == ".." then None
      else
        assert '/' !in last by {
          forall k | 0 <= k < |last|
            ensures last[k] != '/'
          {
            assert !OccursAt(path, "/", i + 1 + k);
            assert path[i + 1 + k..i + 2 + k] == [last[k]];
          }
        }
        Some(last)
  }

  /** The result of one context lookup: a working directory and, maybe, a git branch. */
  datatype PaneContext = PaneContext(cwd: string, branch: Option<string>) {

    /**
     * `PaneContext::parse`: after trimming, the text before the first `|` is
     * the working directory and must not be empty; everything after it,
     * further pipes included, is the branch, which is absent when empty.
     */
    static function Parse(output: string): (r: Option<PaneContext>)
      ensures r.None? <==> '|' !in Trim(output) || Trim(output)[0] == '|'
      ensures r.Some? ==> r.value.cwd != [] && '|' !in r.value.cwd && r.value.branch != Some("")
      ensures r.Some? ==> Trim(output) == r.value.cwd + "|" + r.value.branch.GetOr("")
    {
      var trimmed := Trim(output);
      match SplitOnce(trimmed, '|')
      case None => None
      case Some((cwd, branch)) =>
        if cwd == [] then None
        else Some(PaneContext(cwd, if branch == [] then None else Some(branch)))
    }

    /**
     * `PaneContext::folder_name`: the last component of the working
     * directory, or the whole directory when it has none.
     */
    function FolderName(): (name: string)
      ensures name == cwd || IsComponentName(name)
    {
      FileName(cwd).GetOr(cwd)
    }
  }

  /**
   * Parsing inverts joining a working directory and a branch with `|`, as long
   * as the directory is non-empty, has no pipe and does not start with
   * whitespace, and the branch does not end with whitespace.
   */
  lemma ParseRoundTrip(cwd: string, b: string)
    requires cwd != [] && '|' !in cwd && !IsWhitespace(cwd[0])
    requires b == [] || !IsWhitespace(b[|b| - 1])
    ensures PaneContext.Parse(cwd + "|" + b) == Some(PaneContext(cwd, if b == [] then None else Some(b)))
  {
    var s := cwd + "|" + b;
    assert IsTrimmed(s);
    TrimOfTrimmed(s);
    SplitOnceJoin(cwd, '|', b);
  }

  /** Only the first pipe splits; later pipes belong to the branch. */
  lemma ParseSplitsAtFirstPipe(output: string, i: nat)
    requires i < |Trim(output)| && Trim(output)[i] == '|' && '|' !in Trim(output)[..i]
    requires i > 0
    ensures PaneContext.Parse(output).Some?
    ensures PaneContext.Parse(output).value.cwd == Trim(output)[..i]
    ensures PaneContext.Parse(output).value.branch.GetOr("") == Trim(output)[i + 1..]
  {
    var t := Trim(output);
    assert t == t[..i] + ['|'] + t[i + 1..];
    SplitOnceJoin(t[..i], '|', t[i + 1..]);
  }

  /** A trailing `/` does not change the file name. */
  lemma FileNameIgnoresTrailingSlash(path: string)
    ensures FileName(path + "/") == FileName(path)
  {
    assert (path + "/")[..|path|] == path;
  }

  /** The file name of `base/name` is `name`, whatever `base` is. */
  lemma FileNameOfJoin(base: string, name: string)
    requires IsComponentName(name)
    ensures FileName(base + "/" + name) == Some(name)
  {
    var p := base + "/" + name;
    LastIndexOfJoin(base, '/', name);
    assert p[|base| + 1..] == name;
  }

  /** A single component is its own file name. */
  lemma FileNameOfComponent(name: string)
    requires IsComponentName(name)
    ensures FileName(name) == Some(name)
  {
    SlashAbsent(name);
  }

  /** A path made only of `/` (the root) has no file name. */
  lemma {:induction false} RootHasNoFileName(path: string)
    requires forall i :: 0 <= i < |path| ==> path[i] == '/'
    ensures FileName(path) == None
  {
    if path != [] {
      assert OccursAt(path, "/", |path| - 1);
      RootHasNoFileName(path[..|path| - 1]);
    }
  }

  /** The folder shown for `base/name`, with or without a trailing `/`, is `name`. */
  lemma FolderNameOfJoin(base: string, name: string, branch: Option<string>)
    requires IsComponentName(name)
    ensures PaneContext(base + "/" + name, branch).FolderName() == name
    ensures PaneContext(base + "/" + name + "/", branch).FolderName() == name
  {
    FileNameOfJoin(base, name);
    FileNameIgnoresTrailingSlash(base + "/" + name);
  }

  /** The root directory, having no last component, is shown as itself. */
  lemma FolderNameOfRoot(cwd: string, branch: Option<string>)
    requires forall i :: 0 <= i < |cwd| ==> cwd[i] == '/'
    ensures PaneContext(cwd, branch).FolderName() == cwd
  {
    RootHasNoFileName(cwd);
  }

  /** A helper line `"<cwd>|<branch>"` gives both parts. */
  lemma ParseExampleWithBranch()
    ensures PaneContext.Parse("/home/user/project|main") == Some(PaneContext("/home/user/project", Some("main")))
  {
    assert "/home/user/project|main" == "/home/user/project" + "|" + "main";
    ParseRoundTrip("/home/user/project", "main");
  }

  /** Nothing after the pipe means no branch. */
  lemma ParseExampleEmptyBranch()
    ensures PaneContext.Parse("/home/user/project|") == Some(PaneContext("/home/user/project", None))
  {
    assert "/home/user/project|" == "/home/user/project" + "|" + "";
    ParseRoundTrip("/home/user/project", "");
  }

  /** Later pipes stay in the branch. */
  lemma ParseExampleExtraPipe()
    ensures PaneContext.Parse("/home/user/project|feature|extra")
         == Some(PaneContext("/home/user/project", Some("feature|extra")))
  {
    assert "/home/user/project|feature|extra" == "/home/user/project" + "|" + "feature|extra";
    ParseRoundTrip("/home/user/project", "feature|extra");
  }

  /** Parsing looks only at the trimmed output: whitespace around a line changes nothing. */
  lemma ParseIgnoresPadding(pre: string, line: string, post: string)
    requires forall i :: 0 <= i < |pre| ==> IsWhitespace(pre[i])
    requires forall i :: 0 <= i < |post| ==> IsWhitespace(post[i])
    requires line != [] && IsTrimmed(line)
    ensures PaneContext.Parse(pre + line + post) == PaneContext.Parse(line)
  {
    TrimSurrounded(pre, line, post);
    TrimOfTrimmed(line);
  }

  /** A trimmed line without a pipe is refused. */
  lemma ParseRejectsPipeless(line: string)
    requires IsTrimmed(line) && '|' !in line
    ensures PaneContext.Parse(line) == None
  {
    TrimOfTrimmed(line);
  }

  /** A trimmed line that starts with the pipe has an empty directory and is refused. */
  lemma ParseRejectsEmptyCwd(rest: string)
    requires rest == [] || !IsWhitespace(rest[|rest| - 1])
    ensures PaneContext.Parse("|" + rest) == None
  {
    assert IsTrimmed("|" + rest);
    TrimOfTrimmed("|" + rest);
  }

  /** Leading spaces and a trailing CR LF are trimmed first. */
  lemma ParseExampleTrimmed()
    ensures PaneContext.Parse("  /home/user/project|main\r\n")
         == Some(PaneContext("/home/user/project", Some("main")))
  {
    assert "  /home/user/project|main\r\n" == "  " + "/home/user/project|main" + "\r\n";
    ParseIgnoresPadding("  ", "/home/user/project|main", "\r\n");
    ParseExampleWithBranch();
  }

  /** An empty working directory is refused. */
  lemma ParseExampleEmptyCwd()
    ensures PaneContext.Parse("|main") == None
  {
    assert "|main" == "|" + "main";
    ParseRejectsEmptyCwd("main");
  }

  /** A line without a pipe is refused. */
  lemma ParseExampleNoPipe()
    ensures PaneContext.Parse("/home/user/project") == None
  {
    ParseRejectsPipeless("/home/user/project");
  }

  /** A nested directory is shown by its last component, with or without a trailing `/`. */
  lemma FolderNameExampleNested()
    ensures PaneContext("/home/user/project", None).FolderName() == "project"
    ensures PaneContext("/home/user/project/", None).FolderName() == "project"
  {
    FolderNameOfJoin("/home/user", "project", None);
    assert "/home/user" + "/" + "project" == "/home/user/project";
    assert "/home/user" + "/" + "project" + "/" == "/home/user/project/";
  }

  /** The root is shown as `/`; a bare name as itself. */
  lemma FolderNameExampleRootAndBare()
    ensures PaneContext("/", None).FolderName() == "/"
    ensures PaneContext("project", None).FolderName() == "project"
  {
    FolderNameOfRoot("/", None);
    FileNameOfComponent("project");
  }
}
