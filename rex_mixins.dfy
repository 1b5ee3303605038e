/**
 * The helpers that rex-mixins adds to the shared utility object: the
 * one-level git repository scan, the dependency version table, console
 * column alignment, home-directory expansion of paths, and the `git`-aware
 * command registry.
 *
 * Node's `path.resolve` and the platform's `path.sep` are not interpreted:
 * they are passed in as `resolve` and `sep`. The directory listing and the
 * existence checks of the filesystem are replaced by a sequence of `Entry`
 * values, one per name that `readdirSync` returns, in its order.
 */
module RexMixins {
  import opened Wrappers
  import opened CommandRegistry

  // ---------------------------------------------------------------------
  // gitTree
  // ---------------------------------------------------------------------

  /** The macOS metadata file that the scan skips by exact name. */
  const DsStore: string := ".DS_Store"

  /** The name of git's metadata directory. */
  const GitDir: string := ".git"

  /**
   * One name of the listing of the scanned directory, with the two facts
   * the scan asks the filesystem about it: whether `statSync` reports a
   * directory, and whether `<child>/.git` exists.
   */
  datatype Entry = Entry(name: string, isDirectory: bool, hasGitInside: bool)

  /** The resolved path of a child: `path.resolve(dir + path.sep + name)`. */
  function ChildPath(resolve: string -> string, sep: string, dir: string, name: string): string
  {
    resolve(dir + sep + name)
  }

  /** Whether the scan pushes `p` on account of entry `e`. */
  predicate Contributes(resolve: string -> string, sep: string, dir: string, e: Entry, p: string)
  {
    && e.name != DsStore
    && ((e.isDirectory && e.hasGitInside && p == ChildPath(resolve, sep, dir, e.name))
        || (e.name == GitDir && p == dir))
  }

  /**
   * What one entry adds to `repos`, in push order: nothing for `.DS_Store`;
   * otherwise first the child's resolved path if it is a directory holding
   * `.git`, then the root `dir` itself, unresolved, if the entry is named
   * `.git`.
   */
  function Contribution(resolve: string -> string, sep: string, dir: string, e: Entry): (r: seq<string>)
    ensures |r| <= 2
    ensures forall p :: p in r <==> Contributes(resolve, sep, dir, e, p)
  {
    if e.name == DsStore then []
    else
      (if e.isDirectory && e.hasGitInside then [ChildPath(resolve, sep, dir, e.name)] else [])
      + (if e.name == GitDir then [dir] else [])
  }

  /** The repository paths found in a listing: each entry's contribution, in listing order. */
  function ReposOf(resolve: string -> string, sep: string, dir: string, entries: seq<Entry>): seq<string>
    decreases |entries|
  {
    if entries == [] then []
    else
      ReposOf(resolve, sep, dir, entries[..|entries| - 1])
      + Contribution(resolve, sep, dir, entries[|entries| - 1])
  }

  /** Indices of the entries the scan calls `statSync` on: all but `.DS_Store`, in order. */
  function StatIndices(entries: seq<Entry>): seq<nat>
    decreases |entries|
  {
    if entries == [] then []
    else
      StatIndices(entries[..|entries| - 1])
      + (if entries[|entries| - 1].name == DsStore then [] else [|entries| - 1])
  }

  /**
   * `gitTree(dir, maxDepth)`: walks the listing of `dir` once and pushes the
   * repositories it finds. `maxDepth` is accepted and ignored. The ghost
   * `statted` records the index of every entry the loop stats.
   */
  method GitTree(resolve: string -> string, sep: string, dir: string, maxDepth: Option<int>, entries: seq<Entry>)
    returns (repos: seq<string>, ghost statted: seq<nat>)
    ensures repos == ReposOf(resolve, sep, dir, entries)
    ensures statted == StatIndices(entries)
    ensures forall k :: k in statted ==> k < |entries| && entries[k].name != DsStore
  {
    repos := [];
    statted := [];
    var i := 0;
    while i < |entries|
      invariant 0 <= i <= |entries|
      invariant repos == ReposOf(resolve, sep, dir, entries[..i])
      invariant statted == StatIndices(entries[..i])
      invariant forall k :: k in statted ==> k < i && entries[k].name != DsStore
    {
      var file := entries[i];
      assert entries[..i + 1][..i] == entries[..i];
      if file.name != DsStore {
        statted := statted + [i];
        if file.isDirectory {
          if file.hasGitInside {
            repos := repos + [ChildPath(resolve, sep, dir, file.name)];
          }
        }
        if file.name == GitDir {
          repos := repos + [dir];
        }
      }
      i := i + 1;
    }
    assert entries[..i] == entries;
  }

  /** Scanning a listing made of two parts yields the first part's paths, then the second's. */
  lemma {:induction false} ReposOfAppend(resolve: string -> string, sep: string, dir: string, a: seq<Entry>, b: seq<Entry>)
    ensures ReposOf(resolve, sep, dir, a + b) == ReposOf(resolve, sep, dir, a) + ReposOf(resolve, sep, dir, b)
    decreases |b|
  {
    if b == [] {
      assert a + b == a;
    } else {
      var b' := b[..|b| - 1];
      assert (a + b)[..|a + b| - 1] == a + b';
      assert (a + b)[|a + b| - 1] == b[|b| - 1];
      ReposOfAppend(resolve, sep, dir, a, b');
    }
  }

  /** A path is found iff some entry of the listing contributes it. */
  lemma {:induction false} ReposOfMembers(resolve: string -> string, sep: string, dir: string, entries: seq<Entry>, p: string)
    ensures p in ReposOf(resolve, sep, dir, entries)
        <==> exists i :: 0 <= i < |entries| && Contributes(resolve, sep, dir, entries[i], p)
    decreases |entries|
  {
    if entries != [] {
      var init := entries[..|entries| - 1];
      ReposOfMembers(resolve, sep, dir, init, p);
      if p in ReposOf(resolve, sep, dir, init) {
        var i :| 0 <= i < |init| && Contributes(resolve, sep, dir, init[i], p);
        assert entries[i] == init[i];
      }
      if exists i :: 0 <= i < |entries| && Contributes(resolve, sep, dir, entries[i], p) {
        var i :| 0 <= i < |entries| && Contributes(resolve, sep, dir, entries[i], p);
        if i < |init| {
          assert init[i] == entries[i];
        }
      }
    }
  }

  /** Each entry contributes at most two paths. */
  lemma {:induction false} ReposOfLength(resolve: string -> string, sep: string, dir: string, entries: seq<Entry>)
    ensures |ReposOf(resolve, sep, dir, entries)| <= 2 * |entries|
    decreases |entries|
  {
    if entries != [] {
      ReposOfLength(resolve, sep, dir, entries[..|entries| - 1]);
    }
  }

  /** A one-entry listing yields that entry's contribution. */
  lemma ReposOfSingle(resolve: string -> string, sep: string, dir: string, e: Entry)
    ensures ReposOf(resolve, sep, dir, [e]) == Contribution(resolve, sep, dir, e)
  {
  }

  /** A `.DS_Store` entry, wherever it stands and whatever the filesystem says of it, changes nothing. */
  lemma DsStoreIgnored(resolve: string -> string, sep: string, dir: string, a: seq<Entry>, e: Entry, b: seq<Entry>)
    requires e.name == DsStore
    ensures ReposOf(resolve, sep, dir, a + [e] + b) == ReposOf(resolve, sep, dir, a + b)
  {
    calc {
      ReposOf(resolve, sep, dir, a + [e] + b);
      { ReposOfAppend(resolve, sep, dir, a + [e], b); }
      ReposOf(resolve, sep, dir, a + [e]) + ReposOf(resolve, sep, dir, b);
      { ReposOfAppend(resolve, sep, dir, a, [e]); ReposOfSingle(resolve, sep, dir, e); }
      ReposOf(resolve, sep, dir, a) + ReposOf(resolve, sep, dir, b);
      { ReposOfAppend(resolve, sep, dir, a, b); }
      ReposOf(resolve, sep, dir, a + b);
    }
  }

  /** The entries the scan reports as repositories: directories holding `.git`, except `.DS_Store`. */
  function RepoChildren(entries: seq<Entry>): seq<Entry>
    decreases |entries|
  {
    if entries == [] then []
    else
      var e := entries[|entries| - 1];
      RepoChildren(entries[..|entries| - 1])
      + (if e.name != DsStore && e.isDirectory && e.hasGitInside then [e] else [])
  }

  /**
   * With no entry named `.git`, the scan returns exactly the resolved paths
   * of the child directories that hold `.git`, in listing order: N such
   * children give N paths and the other children give none.
   */
  lemma {:induction false} ReposOfWithoutGitEntry(resolve: string -> string, sep: string, dir: string, entries: seq<Entry>)
    requires forall i :: 0 <= i < |entries| ==> entries[i].name != GitDir
    ensures |ReposOf(resolve, sep, dir, entries)| == |RepoChildren(entries)|
    ensures forall i :: 0 <= i < |RepoChildren(entries)| ==>
      ReposOf(resolve, sep, dir, entries)[i] == ChildPath(resolve, sep, dir, RepoChildren(entries)[i].name)
    decreases |entries|
  {
    if entries != [] {
      var init := entries[..|entries| - 1];
      ReposOfWithoutGitEntry(resolve, sep, dir, init);
    }
  }

  /**
   * Scanning from inside a repository: a listing whose only entry is
   * `.git` (without a nested `.git` of its own) yields the root, as given.
   */
  lemma ScanInsideRepository(resolve: string -> string, sep: string, dir: string, isDirectory: bool)
    ensures ReposOf(resolve, sep, dir, [Entry(GitDir, isDirectory, false)]) == [dir]
  {
  }

  /**
   * A `.git` directory that itself holds a `.git` counts twice: first its
   * own resolved path, as a child repository, then the root, unresolved.
   */
  lemma NestedGitDirectory(resolve: string -> string, sep: string, dir: string)
    ensures ReposOf(resolve, sep, dir, [Entry(GitDir, true, true)])
      == [ChildPath(resolve, sep, dir, GitDir), dir]
  {
    ReposOfSingle(resolve, sep, dir, Entry(GitDir, true, true));
  }

  // ---------------------------------------------------------------------
  // dependencyVersions
  // ---------------------------------------------------------------------

  /**
   * The part of an `npm ls` entry that is read: its `version` field, `None`
   * when the field is absent (JavaScript's `undefined`).
   */
  datatype Meta = Meta(version: Option<string>)

  /**
   * `dependencyVersions(dependencies)`: fills a fresh `versions` object with
   * one key per dependency, holding that dependency's `meta.version`.
   */
  method DependencyVersions(dependencies: map<string, Meta>) returns (versions: map<string, Option<string>>)
    ensures versions.Keys == dependencies.Keys
    ensures forall name :: name in dependencies ==> versions[name] == dependencies[name].version
  {
    versions := map[];
    var todo := dependencies.Keys;
    while todo != {}
      invariant todo <= dependencies.Keys
      invariant versions.Keys == dependencies.Keys - todo
      invariant forall name :: name in versions ==> versions[name] == dependencies[name].version
      decreases todo
    {
      var name :| name in todo;
      versions := versions[name := dependencies[name].version];
      todo := todo - {name};
    }
  }

  // ---------------------------------------------------------------------
  // align
  // ---------------------------------------------------------------------

  /** `width || 12`: a missing width or a width of 0 falls back to 12. */
  function AlignWidth(width: Option<int>): int
  {
    if width == None || width == Some(0) then 12 else width.value
  }

  function Max(a: int, b: int): int
  {
    if a < b then b else a
  }

  /**
   * `align(string, width)`: prefixes two spaces, then appends spaces while
   * the text is shorter than the width.
   */
  method Align(s: string, width: Option<int>) returns (r: string)
    ensures |r| == Max(|s| + 2, AlignWidth(width))
    ensures r[..|s| + 2] == "  " + s
    ensures forall i :: |s| + 2 <= i < |r| ==> r[i] == ' '
  {
    r := "  " + s;
    var w := AlignWidth(width);
    while |r| < w
      invariant |s| + 2 <= |r| <= Max(|s| + 2, w)
      invariant r[..|s| + 2] == "  " + s
      invariant forall i :: |s| + 2 <= i < |r| ==> r[i] == ' '
      decreases w - |r|
    {
      r := r + " ";
    }
  }

  // ---------------------------------------------------------------------
  // osPath
  // ---------------------------------------------------------------------

  /**
   * What `process.env.HOME + rest` puts in front of `rest`: the value of
   * HOME, or the text `undefined` when the variable is unset.
   */
  function HomeText(home: Option<string>): string
  {
    match home
    case Some(h) => h
    case None => "undefined"
  }

  /** Whether a path string starts with `~` (`pathString.substr(0,1) === '~'`). */
  predicate StartsWithTilde(p: string)
  {
    p != [] && p[0] == '~'
  }

  /**
   * The string `osPath` hands to `path.resolve`: a leading `~` is replaced
   * by HOME; any other string is passed through.
   */
  function TildeExpanded(p: string, home: Option<string>): (r: string)
    ensures !StartsWithTilde(p) ==> r == p
    ensures StartsWithTilde(p) ==> |r| == |HomeText(home)| + |p| - 1 && r[..|HomeText(home)|] == HomeText(home)
    ensures p != [] ==> r[|r| - (|p| - 1)..] == p[1..]
  {
    if StartsWithTilde(p) then HomeText(home) + p[1..] else p
  }

  /** `osPath(pathString)`: tilde expansion, then `path.resolve`. */
  function OsPath(resolve: string -> string, home: Option<string>, p: string): string
  {
    resolve(TildeExpanded(p, home))
  }

  /** Only the first character is looked at: a `~` anywhere else survives expansion. */
  lemma OnlyLeadingTildeExpands(resolve: string -> string, home: Option<string>, p: string, i: nat)
    requires 0 < i < |p|
    ensures TildeExpanded(p, home)[|TildeExpanded(p, home)| - |p| + i] == p[i]
    ensures !StartsWithTilde(p) ==> OsPath(resolve, home, p) == resolve(p)
  {
  }

  /** When HOME is set and does not itself start with `~`, expanding twice equals expanding once. */
  lemma TildeExpandedIdempotent(home: Option<string>, p: string)
    requires !StartsWithTilde(HomeText(home)) && HomeText(home) != ""
    ensures TildeExpanded(TildeExpanded(p, home), home) == TildeExpanded(p, home)
  {
  }

  // ---------------------------------------------------------------------
  // rex_commands
  // ---------------------------------------------------------------------

  /**
   * `rex_commands()`: the shell commands of the rex-* tools, including a
   * `git` tool. Templates longer than a line are written as concatenations
   * of literal pieces that join to the registered strings.
   */
  function RexCommands(): Registry
  {
    map[
      "mongo" := map[
        "list" :=
          "mongo {{dbname}}" + " --quiet --eval " + "\"printjson(db.getCollectionNames())\"",
        "count" :=
          "mongo {{dbname}}" + " --quiet --eval " + "\"printjson(db.getCollectionNames()"
          + ".forEach(function(coll)" + "{printjson(coll+\"-\"+db[coll].count())" + "}))\"",
        "drop" :=
          "mongo {{dbname}}" + " --eval \"db.getCollectionNames()" + ".forEach( function(coll) "
          + "{ if(coll!='system.indexes') " + "{ db[coll].drop(); " + "db[coll].dropIndexes()}})\"",
        "snapshot" := "",
        "restore" := ""
      ],
      "redis" := map[
        "count" := "redis-cli keys \"*\" | wc -l",
        "clear" := "redis-cli flushall"
      ],
      "git" := map[
        "branch" := "git rev-parse --abbrev-ref HEAD",
        "status_quiet" := "git fetch && git status -sb",
        "status_long" := "git fetch && git status",
        "peek" := "",
        "porcelain" :=
          "if [ -n \"$(git status --porcelain)\" ]; then \n"
          + "  echo >&2 \"$(git status -sb)\"; \n"
          + "  exit 1; \n"
          + "else \n"
          + "  echo \"CLEAN\"; \n"
          + "fi",
        "prePull" :=
          "if [ -n \"$(git status --porcelain)\" ]; then \n"
          + "  echo >&2 \"ERROR: Working tree dirty, aborting pull.\"; \n"
          + "  exit 1; \n"
          + "else \n"
          + "  echo \"Working tree clean, pulling\"; \n"
          + "  git pull \n"
          + "fi"
      ]
    ]
  }

  /** The table knows three tools. */
  lemma RexCommandsTools()
    ensures RexCommands().Keys == {"mongo", "redis", "git"}
  {
  }

  /**
   * git has exactly six actions; `peek` is registered with an empty
   * template, and `branch` asks git for the current branch name.
   */
  lemma GitActions(action: string)
    ensures Lookup(RexCommands(), "git", action).Some?
      <==> action in {"branch", "status_quiet", "status_long", "peek", "porcelain", "prePull"}
    ensures Lookup(RexCommands(), "git", "peek") == Some("")
    ensures Lookup(RexCommands(), "git", "branch") == Some("git rev-parse --abbrev-ref HEAD")
  {
  }
}
