/**
 Plugin discovery on disk: a directory listing, Go's file-extension rule, and the filter
 that decides which entries of a plugin directory are tried as plugin executables.
 */
module Discovery {
  import opened Outcomes

  /** One directory entry: its base name and whether it is a directory. */
  datatype Entry = Entry(name: string, isDir: bool)

  /** What reading a directory gives: it does not exist, it cannot be read, or its
      entries in the order the listing returns them. `os.ReadDir` sorts entries by file
      name; the model allows any order, so what it proves holds for the sorted one too. */
  datatype Dir = Missing | Unreadable(cause: Error) | Listing(entries: seq<Entry>)

  /** The extension found scanning `name[..i]` backwards: from the last '.' to the end of
      `name`, stopping with none at a path separator or at the start. */
  function ExtFrom(name: string, i: nat): string
    requires i <= |name|
    decreases i
  {
    if i == 0 then ""
    else if name[i - 1] == '/' then ""
    else if name[i - 1] == '.' then name[i - 1..]
    else ExtFrom(name, i - 1)
  }


  /** No path separator after position `k`. */
  predicate LastElement(name: string, k: int)
  {
    forall j :: k < j < |name| && 0 <= j ==> name[j] != '/'
  }

  /** The last path element of `name` holds no '.'. */
  predicate NoDotInLastElement(name: string)
  {
    forall k :: 0 <= k < |name| && name[k] == '.' ==> !LastElement(name, k)
  }

  /** `e` is a proper extension of `name`: a suffix that starts with '.' and holds no
      other '.' and no separator. */
  predicate IsExtension(name: string, e: string)
  {
    && 0 < |e| <= |name|
    && name[|name| - |e|..] == e
    && e[0] == '.'
    && (forall j :: 0 < j < |e| ==> e[j] != '.' && e[j] != '/')
  }

  /** The reference characterisation of the scan from `i`, given that `name[i..]` holds
      no '.' and no separator. */
  lemma {:induction false} ExtFromSpec(name: string, i: nat)
    requires i <= |name|
    requires forall j :: i <= j < |name| ==> name[j] != '.' && name[j] != '/'
    ensures ExtFrom(name, i) == "" <==> NoDotInLastElement(name)
    ensures ExtFrom(name, i) != "" ==> IsExtension(name, ExtFrom(name, i))
    decreases i
  {
    if i == 0 {
    } else if name[i - 1] == '/' {
      forall k | 0 <= k < |name| && name[k] == '.'
        ensures !LastElement(name, k)
      {
        assert k < i - 1;
        assert name[i - 1] == '/';
      }
    } else if name[i - 1] == '.' {
      var e := name[i - 1..];
      assert LastElement(name, i - 1);
      assert forall j :: 0 < j < |e| ==> e[j] == name[i - 1 + j];
    } else {
      ExtFromSpec(name, i - 1);
    }
  }

  /** `filepath.Ext`: empty exactly when the last path element has no '.', and otherwise
      the extension that element ends with. */
  function Ext(name: string): (e: string)
    ensures e == "" <==> NoDotInLastElement(name)
    ensures e != "" ==> IsExtension(name, e)
  {
    ExtFromSpec(name, |name|);
    ExtFrom(name, |name|)
  }

  predicate EndsWith(s: string, suffix: string)
  {
    |suffix| <= |s| && s[|s| - |suffix|..] == suffix
  }

  /** The extension is ".exe" exactly when the name ends with ".exe". */
  lemma {:induction false} ExtExe(name: string)
    ensures Ext(name) == ".exe" <==> EndsWith(name, ".exe")
  {
    if EndsWith(name, ".exe") {
      var n := |name|;
      assert name[n - 4..] == ".exe";
      assert name[n - 1] == 'e' && name[n - 2] == 'x' && name[n - 3] == 'e' && name[n - 4] == '.';
      assert ExtFrom(name, n) == ExtFrom(name, n - 1) == ExtFrom(name, n - 2) == ExtFrom(name, n - 3);
    }
  }

  /** A non-directory entry whose extension is ".exe" or empty is tried as a plugin: one
      whose name ends with ".exe" or whose last path element has no '.'. */
  predicate IsCandidate(e: Entry): (b: bool)
    ensures b <==> !e.isDir && (EndsWith(e.name, ".exe") || NoDotInLastElement(e.name))
  {
    ExtExe(e.name);
    !e.isDir && (Ext(e.name) == ".exe" || Ext(e.name) == "")
  }

  /** The candidate entries of a listing, in listing order. */
  function Candidates(entries: seq<Entry>): (cs: seq<Entry>)
    ensures |cs| <= |entries|
    ensures forall e :: e in cs <==> e in entries && IsCandidate(e)
  {
    if entries == [] then []
    else if IsCandidate(entries[0]) then [entries[0]] + Candidates(entries[1..])
    else Candidates(entries[1..])
  }

  /** The candidates of two listings, one after the other, are the candidates of each. */
  lemma {:induction false} CandidatesAppend(a: seq<Entry>, b: seq<Entry>)
    ensures Candidates(a + b) == Candidates(a) + Candidates(b)
  {
    if a == [] {
      assert a + b == b;
    } else {
      assert (a + b)[1..] == a[1..] + b;
      CandidatesAppend(a[1..], b);
    }
  }

  /** The paths tried for a listing of `dir`, each candidate's name joined to `dir`. */
  function CandidatePaths(dir: string, entries: seq<Entry>, join: (string, string) -> string)
    : (paths: seq<string>)
    ensures |paths| == |Candidates(entries)|
    ensures forall i :: 0 <= i < |paths| ==> paths[i] == join(dir, Candidates(entries)[i].name)
  {
    var cs := Candidates(entries);
    seq(|cs|, i requires 0 <= i < |cs| => join(dir, cs[i].name))
  }

  /** The paths tried for two listings, one after the other, are the paths of each. */
  lemma CandidatePathsAppend(dir: string, a: seq<Entry>, b: seq<Entry>, join: (string, string) -> string)
    ensures CandidatePaths(dir, a + b, join) == CandidatePaths(dir, a, join) + CandidatePaths(dir, b, join)
  {
    CandidatesAppend(a, b);
  }
}
