/** An abstract file system: directories, text files as sequences of lines,
    and the writers currently open on each path. Every step that can fail in
    java.io takes its outcome as a parameter, so the model covers both. */
module FileSystem {

  import opened JavaLang

  /** How one I/O attempt turns out; a failure carries the IOException's getMessage(). */
  datatype IoOutcome = Succeeds | Fails(message: Nullable<string>)

  /** new File(dir, name).getAbsolutePath(), for an absolute `dir`. */
  function Child(dir: string, name: string): string {
    dir + "/" + name
  }

  class Files {
    /** System.getProperty("user.home"). */
    const home: string
    /** Paths that exist as directories. */
    var dirs: set<string>
    /** Paths that exist as files, with their lines. */
    var files: map<string, seq<string>>
    /** How many writers are open on each path. */
    var openWriters: multiset<string>

    constructor (home: string, dirs: set<string>, files: map<string, seq<string>>)
      ensures this.home == home && this.dirs == dirs && this.files == files
      ensures openWriters == multiset{}
    {
      this.home := home;
      this.dirs := dirs;
      this.files := files;
      openWriters := multiset{};
    }

    /** File.exists(): true for a directory and for a regular file alike. */
    predicate Exists(path: string)
      reads this
    {
      path in dirs || path in files
    }

    /** The lines of `path`, or none when it does not exist. */
    function ContentsOf(path: string): seq<string>
      reads this
    {
      if path in files then files[path] else []
    }

    /** File.mkdirs() on `dir`; `succeeds` is the oracle's answer. */
    method Mkdirs(dir: string, succeeds: bool) returns (made: bool)
      modifies this
      ensures made == succeeds
      ensures dirs == if made then old(dirs) + {dir} else old(dirs)
      ensures files == old(files) && openWriters == old(openWriters)
    {
      made := succeeds;
      if made {
        dirs := dirs + {dir};
      }
    }

    /** new FileWriter(path, append): creates the file when it is missing and, unless
        appending, empties it; on failure nothing changes (the constructor throws). */
    method Open(path: string, append: bool, outcome: IoOutcome) returns (ok: bool)
      modifies this
      ensures ok == outcome.Succeeds?
      ensures ok ==> files == old(files)[path := if append then old(ContentsOf(path)) else []]
      ensures ok ==> openWriters == old(openWriters) + multiset{path}
      ensures !ok ==> files == old(files) && openWriters == old(openWriters)
      ensures dirs == old(dirs)
    {
      ok := outcome.Succeeds?;
      if ok {
        files := files[path := if append then ContentsOf(path) else []];
        openWriters := openWriters + multiset{path};
      }
    }

    /** PrintWriter.println on an open writer with auto-flush: the line reaches the
        file, which exists because opening it created it. */
    method Println(path: string, line: string)
      requires path in openWriters && path in files
      modifies this
      ensures files == old(files)[path := old(files[path]) + [line]]
      ensures dirs == old(dirs) && openWriters == old(openWriters)
    {
      files := files[path := files[path] + [line]];
    }

    /** PrintWriter.close(). */
    method Close(path: string)
      requires path in openWriters
      modifies this
      ensures openWriters == old(openWriters) - multiset{path}
      ensures files == old(files) && dirs == old(dirs)
    {
      openWriters := openWriters - multiset{path};
    }
  }
}
