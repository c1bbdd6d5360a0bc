/**
 * Output of derived tables (surfaceplot/models/export.py): sanitising the
 * current file name, composing the timestamped output name, and the
 * `Export` object whose writes are skipped while its file name or its
 * output directory is unset.
 *
 * The file system is the `FileSystem` class below: the set of existing
 * directories and the log of files written, in order.
 */
module Export {
  import opened Basics

  // ---------------------------------------------------------------------
  // File name sanitising: re.sub(r'[\\/:*?"<>|]+', '-', name)
  // ---------------------------------------------------------------------

  /** A member of the character class `[\\/:*?"<>|]`. */
  predicate IsIllegal(c: char) {
    c == '\\' || c == '/' || c == ':' || c == '*' || c == '?'
    || c == '"' || c == '<' || c == '>' || c == '|'
  }

  /** The replacement text of the substitution. */
  const Replacement: char := '-'

  /** No character of s is illegal in a file name. */
  predicate Clean(s: string) {
    forall i :: 0 <= i < |s| ==> !IsIllegal(s[i])
  }

  /** Every character of s is illegal in a file name. */
  predicate AllIllegal(s: string) {
    forall i :: 0 <= i < |s| ==> IsIllegal(s[i])
  }

  /**
   * What follows the leading run of illegal characters of s: the part of s
   * that the greedy `+` in the pattern does not consume.
   */
  function DropRun(s: string): (r: string)
    ensures |r| <= |s|
    ensures s != [] && IsIllegal(s[0]) ==> |r| < |s|
    ensures r == [] || !IsIllegal(r[0])
  {
    if s != [] && IsIllegal(s[0]) then DropRun(s[1..]) else s
  }

  /**
   * `replace_string`: every maximal run of illegal characters becomes one
   * `-`; every other character is kept in place.
   */
  function ReplaceString(s: string): (r: string)
    ensures |r| <= |s|
    decreases |s|
  {
    if s == [] then []
    else if IsIllegal(s[0]) then [Replacement] + ReplaceString(DropRun(s))
    else [s[0]] + ReplaceString(s[1..])
  }

  /** A name with no illegal character is left exactly as it is. */
  lemma {:induction false} ReplaceStringClean(s: string)
    requires Clean(s)
    ensures ReplaceString(s) == s
  {
    if s != [] {
      assert Clean(s[1..]) by {
        forall i | 0 <= i < |s[1..]| ensures !IsIllegal(s[1..][i]) {
          assert s[1..][i] == s[i + 1];
        }
      }
      ReplaceStringClean(s[1..]);
    }
  }

  /** The sanitised name contains none of the nine illegal characters. */
  lemma {:induction false} ReplaceStringIsClean(s: string)
    ensures Clean(ReplaceString(s))
    decreases |s|
  {
    if s == [] {
    } else if IsIllegal(s[0]) {
      ReplaceStringIsClean(DropRun(s));
    } else {
      ReplaceStringIsClean(s[1..]);
    }
  }

  /** Sanitising twice is sanitising once. */
  lemma ReplaceStringIdempotent(s: string)
    ensures ReplaceString(ReplaceString(s)) == ReplaceString(s)
  {
    ReplaceStringIsClean(s);
    ReplaceStringClean(ReplaceString(s));
  }

  /** A whole run of illegal characters collapses to a single `-`. */
  lemma ReplaceStringRun(s: string)
    requires s != [] && AllIllegal(s)
    ensures ReplaceString(s) == [Replacement]
  {
    DropRunAll(s);
  }

  /** A string made only of illegal characters is consumed entirely. */
  lemma {:induction false} DropRunAll(s: string)
    requires AllIllegal(s)
    ensures DropRun(s) == []
  {
    if s != [] {
      assert AllIllegal(s[1..]) by {
        forall i | 0 <= i < |s[1..]| ensures IsIllegal(s[1..][i]) {
          assert s[1..][i] == s[i + 1];
        }
      }
      DropRunAll(s[1..]);
    }
  }

  /** Dropping the leading run stops at the first legal character. */
  lemma {:induction false} DropRunAppend(a: string, t: string)
    requires t != [] && !IsIllegal(t[0])
    ensures DropRun(a + t) == DropRun(a) + t
    decreases |a|
  {
    if a == [] {
      assert a + t == t;
    } else if IsIllegal(a[0]) {
      assert (a + t)[1..] == a[1..] + t;
      DropRunAppend(a[1..], t);
    } else {
      assert (a + t)[0] == a[0];
    }
  }

  /**
   * Sanitising splits around any legal character: the runs on either side
   * of it are replaced independently. Together with ReplaceStringClean and
   * ReplaceStringRun this pins down the substitution on every input.
   */
  lemma {:induction false} ReplaceStringSplit(a: string, c: char, b: string)
    requires !IsIllegal(c)
    ensures ReplaceString(a + [c] + b) == ReplaceString(a) + [c] + ReplaceString(b)
    decreases |a|, 1
  {
    if a == [] {
      assert a + [c] + b == [c] + b;
      assert ([c] + b)[1..] == b;
    } else if IsIllegal(a[0]) {
      SplitIllegalStep(a, c, b);
    } else {
      SplitLegalStep(a, c, b);
    }
  }

  /** ReplaceStringSplit when a starts with an illegal character. */
  lemma {:induction false} SplitIllegalStep(a: string, c: char, b: string)
    requires !IsIllegal(c) && a != [] && IsIllegal(a[0])
    ensures ReplaceString(a + [c] + b) == ReplaceString(a) + [c] + ReplaceString(b)
    decreases |a|, 0
  {
    var d := DropRun(a);
    SplitIllegalHead(a, c, b);
    ReplaceStringSplit(d, c, b);
    ConcatAssoc([Replacement], ReplaceString(d), c, ReplaceString(b));
  }

  /** ReplaceStringSplit when a starts with a legal character. */
  lemma {:induction false} SplitLegalStep(a: string, c: char, b: string)
    requires !IsIllegal(c) && a != [] && !IsIllegal(a[0])
    ensures ReplaceString(a + [c] + b) == ReplaceString(a) + [c] + ReplaceString(b)
    decreases |a|, 0
  {
    var t := a[1..];
    SplitLegalHead(a, c, b);
    ReplaceStringSplit(t, c, b);
    ConcatAssoc([a[0]], ReplaceString(t), c, ReplaceString(b));
  }

  lemma ConcatAssoc(p: string, x: string, c: char, y: string)
    ensures p + (x + [c] + y) == (p + x) + [c] + y
  {
  }

  /** The step of ReplaceStringSplit when a starts with a legal character. */
  lemma SplitLegalHead(a: string, c: char, b: string)
    requires a != [] && !IsIllegal(a[0])
    ensures ReplaceString(a) == [a[0]] + ReplaceString(a[1..])
    ensures ReplaceString(a + [c] + b) == [a[0]] + ReplaceString(a[1..] + [c] + b)
  {
    var s := a + [c] + b;
    assert s[0] == a[0];
    assert s[1..] == a[1..] + [c] + b;
  }

  /** The step of ReplaceStringSplit when a starts with an illegal character. */
  lemma SplitIllegalHead(a: string, c: char, b: string)
    requires !IsIllegal(c) && a != [] && IsIllegal(a[0])
    ensures |DropRun(a)| < |a|
    ensures ReplaceString(a) == [Replacement] + ReplaceString(DropRun(a))
    ensures ReplaceString(a + [c] + b) == [Replacement] + ReplaceString(DropRun(a) + [c] + b)
  {
    var s := a + [c] + b;
    assert s[0] == a[0];
    assert s == a + ([c] + b);
    DropRunAppend(a, [c] + b);
    var d := DropRun(a);
    assert DropRun(s) == d + ([c] + b);
    assert d + ([c] + b) == d + [c] + b;
  }

  lemma ReplaceStringExample1Tail()
    ensures ReplaceString("b:c*d") == "b-c-d"
  {
    ReplaceStringExample1End();
    assert DropRun(":c*d") == "c*d";
    assert ReplaceString(":c*d") == "-c-d";
  }

  lemma ReplaceStringExample1End()
    ensures ReplaceString("c*d") == "c-d"
  {
    assert ReplaceString("d") == "d";
    assert DropRun("*d") == "d";
    assert ReplaceString("*d") == "-d";
  }

  /** `a/b:c*d` becomes `a-b-c-d`: each single illegal character becomes `-`. */
  lemma ReplaceStringExample1()
    ensures ReplaceString("a/b:c*d") == "a-b-c-d"
  {
    ReplaceStringExample1Tail();
    assert DropRun("/b:c*d") == "b:c*d";
    assert ReplaceString("/b:c*d") == "-b-c-d";
  }

  /** `a//b` becomes `a-b`: a run of two collapses to one `-`. */
  lemma ReplaceStringExample2()
    ensures ReplaceString("a//b") == "a-b"
  {
    assert ReplaceString("b") == "b";
    assert DropRun("/b") == "b";
    assert DropRun("//b") == "b";
    assert ReplaceString("//b") == "-b";
  }

  // ---------------------------------------------------------------------
  // Timestamp prefix: datetime.now().strftime('%y%m%d%H%M%S_')
  // ---------------------------------------------------------------------

  /** A calendar time as `datetime` holds it (seconds resolution). */
  datatype DateTime = DateTime(year: int, month: int, day: int, hour: int, minute: int, second: int)

  /** The ranges `datetime` guarantees for its fields. */
  predicate ValidDateTime(t: DateTime) {
    && 1 <= t.year <= 9999 && 1 <= t.month <= 12 && 1 <= t.day <= 31
    && 0 <= t.hour <= 23 && 0 <= t.minute <= 59 && 0 <= t.second <= 59
  }

  /** Two-digit, zero-padded decimal, as `%m`, `%d`, `%H`, ... print. */
  function Pad2(n: int): (s: string)
    requires 0 <= n < 100
    ensures |s| == 2 && IsDigit(s[0]) && IsDigit(s[1])
    ensures DigitValue(s[0]) * 10 + DigitValue(s[1]) == n
  {
    [DigitChar(n / 10), DigitChar(n % 10)]
  }

  /** The time as the six two-digit fields `%y %m %d %H %M %S`. */
  datatype StampFields = StampFields(yy: int, mm: int, dd: int, hh: int, mi: int, ss: int)

  /** The prefix `<yymmddHHMMSS>_` that every output name starts with. */
  function Stamp(t: DateTime): (s: string)
    requires ValidDateTime(t)
    ensures |s| == 13 && s[12] == '_'
    ensures forall i :: 0 <= i < 12 ==> IsDigit(s[i])
  {
    Pad2(t.year % 100) + Pad2(t.month) + Pad2(t.day)
      + Pad2(t.hour) + Pad2(t.minute) + Pad2(t.second) + "_"
  }

  /** The fields of a time that `%y%m%d%H%M%S` keeps: the year modulo 100. */
  function Fields(t: DateTime): StampFields {
    StampFields(t.year % 100, t.month, t.day, t.hour, t.minute, t.second)
  }

  function Pair(s: string, i: nat): int
    requires i + 1 < |s| && IsDigit(s[i]) && IsDigit(s[i + 1])
  {
    DigitValue(s[i]) * 10 + DigitValue(s[i + 1])
  }

  /** Reads the six two-digit fields back from the front of a name. */
  function ParseStamp(s: string): StampFields
    requires |s| >= 12 && forall i :: 0 <= i < 12 ==> IsDigit(s[i])
  {
    StampFields(Pair(s, 0), Pair(s, 2), Pair(s, 4), Pair(s, 6), Pair(s, 8), Pair(s, 10))
  }

  /** The prefix determines the time up to the century: it can be read back. */
  lemma StampRoundTrip(t: DateTime)
    requires ValidDateTime(t)
    ensures ParseStamp(Stamp(t)) == Fields(t)
  {
    var s := Stamp(t);
    var p := [Pad2(t.year % 100), Pad2(t.month), Pad2(t.day), Pad2(t.hour), Pad2(t.minute), Pad2(t.second)];
    forall k | 0 <= k < 6 ensures s[2 * k] == p[k][0] && s[2 * k + 1] == p[k][1] {
    }
  }

  /** `now + self._filename + suffix + '.csv'` */
  function OutputName(t: DateTime, name: string, suffix: string): (r: string)
    requires ValidDateTime(t)
    ensures |r| == 17 + |name| + |suffix|
    ensures r[..13] == Stamp(t) && r[13..|r| - 4] == name + suffix && r[|r| - 4..] == ".csv"
  {
    Stamp(t) + name + suffix + ".csv"
  }

  /**
   * Two exports get the same file name exactly when they fall in the same
   * second (up to the century) and carry the same name and suffix text.
   */
  lemma OutputNameInjective(t1: DateTime, n1: string, s1: string, t2: DateTime, n2: string, s2: string)
    requires ValidDateTime(t1) && ValidDateTime(t2)
    ensures OutputName(t1, n1, s1) == OutputName(t2, n2, s2)
        <==> Fields(t1) == Fields(t2) && n1 + s1 == n2 + s2
  {
    var r1, r2 := OutputName(t1, n1, s1), OutputName(t2, n2, s2);
    StampRoundTrip(t1);
    StampRoundTrip(t2);
    if r1 == r2 {
      assert Stamp(t1) == Stamp(t2);
    }
    if Fields(t1) == Fields(t2) && n1 + s1 == n2 + s2 {
      assert Stamp(t1) == Stamp(t2);
      assert r1 == Stamp(t1) + (n1 + s1) + ".csv";
      assert r2 == Stamp(t2) + (n2 + s2) + ".csv";
    }
  }

  // ---------------------------------------------------------------------
  // Payloads, paths and the file system
  // ---------------------------------------------------------------------

  /** `root_dir / filename` */
  datatype FilePath = FilePath(dir: string, name: string)

  /**
   * The shapes of DataFrame the application writes: an image labelled
   * with real coordinates (x as column labels, y as row labels); a
   * cross-section table, the `to_df` of two stacked columns, indexed by
   * one named coordinate column; and the one-row table `to_df` makes when
   * the value column was `None`, whose one value is missing.
   */
  datatype Frame =
    | CoordImage(image: Grid, columns: seq<real>, index: seq<real>)
    | Section(indexName: string, valueName: string, index: seq<real>, values: seq<real>)
    | BlankSection(indexName: string, valueName: string, key: real)

  /** What one write put into a file: `np.savetxt` of an array, or `to_csv` of a DataFrame. */
  datatype Payload = SavedArray(array: Grid) | SavedFrame(frame: Frame)

  datatype Written = Written(path: FilePath, payload: Payload)

  /** The directories that exist and the files written so far, in order. */
  class FileSystem {
    var dirs: set<string>
    var written: seq<Written>

    constructor (dirs: set<string>)
      ensures this.dirs == dirs && written == []
    {
      this.dirs := dirs;
      written := [];
    }

    /** `Path.mkdir()` when the directory is missing. */
    method MakeDir(dir: string)
      modifies this
      ensures dirs == old(dirs) + {dir} && written == old(written)
    {
      dirs := dirs + {dir};
    }

    method Write(w: Written)
      modifies this
      ensures written == old(written) + [w] && dirs == old(dirs)
    {
      written := written + [w];
    }
  }

  // ---------------------------------------------------------------------
  // The Export object
  // ---------------------------------------------------------------------

  class Exporter {
    var filename: Option<string>
    var rootDir: Option<string>

    /** `Export()`: neither a file name nor a directory. */
    constructor ()
      ensures filename == None && rootDir == None
    {
      filename := None;
      rootDir := None;
    }

    /** `Export(root_dir)`: the directory is created when missing. */
    constructor WithRoot(dir: string, fs: FileSystem)
      modifies fs
      ensures filename == None && rootDir == Some(dir)
      ensures fs.dirs == old(fs.dirs) + {dir} && fs.written == old(fs.written)
    {
      filename := None;
      rootDir := Some(dir);
      new;
      if dir !in fs.dirs {
        fs.MakeDir(dir);
      }
    }

    /** Both fields are set, so an export call writes a file. */
    predicate CanExport()
      reads this
    {
      filename.Some? && rootDir.Some?
    }

    /** `exporter.filename = name`: the stored name is the sanitised one. */
    method AssignFilename(name: string)
      modifies this
      ensures filename == Some(ReplaceString(name)) && rootDir == old(rootDir)
    {
      filename := Some(ReplaceString(name));
    }

    /**
     * `exporter.root_dir = dir`: stores the directory and makes sure it
     * exists; a directory that already exists is left as it is.
     */
    method AssignRootDir(dir: string, fs: FileSystem)
      modifies this, fs
      ensures rootDir == Some(dir) && filename == old(filename)
      ensures fs.dirs == old(fs.dirs) + {dir} && fs.written == old(fs.written)
      ensures dir in old(fs.dirs) ==> fs.dirs == old(fs.dirs)
    {
      rootDir := Some(dir);
      CheckRootDirExists(fs);
    }

    /** `check_root_dir_exists`: creates the directory if it is missing. */
    method CheckRootDirExists(fs: FileSystem)
      requires rootDir.Some?
      modifies fs
      ensures fs.dirs == old(fs.dirs) + {rootDir.value} && fs.written == old(fs.written)
    {
      if rootDir.value !in fs.dirs {
        fs.MakeDir(rootDir.value);
      }
    }

    /**
     * `set_root_dir(filename)`: despite its name it sets the file name (the
     * sanitised one) and leaves the directory alone.
     */
    method SetRootDir(filename: string)
      modifies this
      ensures this.filename == Some(ReplaceString(filename)) && rootDir == old(rootDir)
    {
      this.filename := Some(ReplaceString(filename));
    }

    /** The path an export with this suffix at time `now` writes to. */
    function TargetPath(now: DateTime, suffix: string): (p: FilePath)
      reads this
      requires CanExport() && ValidDateTime(now)
      ensures p.dir == rootDir.value
      ensures |p.name| == 17 + |filename.value| + |suffix|
      ensures p.name[..13] == Stamp(now) && p.name[|p.name| - 4..] == ".csv"
      ensures p.name[13..|p.name| - 4] == filename.value + suffix
    {
      FilePath(rootDir.value, OutputName(now, filename.value, suffix))
    }

    /** The guarded write both export methods share. */
    method ExportPayload(data: Payload, suffix: string, now: DateTime, fs: FileSystem)
      requires ValidDateTime(now)
      modifies fs
      ensures !CanExport() ==> fs.dirs == old(fs.dirs) && fs.written == old(fs.written)
      ensures CanExport() ==> fs.dirs == old(fs.dirs) + {rootDir.value}
      ensures CanExport() ==> fs.written == old(fs.written) + [Written(TargetPath(now, suffix), data)]
    {
      if filename.None? || rootDir.None? {
        return;
      }
      CheckRootDirExists(fs);
      fs.Write(Written(TargetPath(now, suffix), data));
    }

    /** `export_dataframe(data, suffix)` */
    method ExportDataframe(data: Frame, suffix: string, now: DateTime, fs: FileSystem)
      requires ValidDateTime(now)
      modifies fs
      ensures !CanExport() ==> fs.dirs == old(fs.dirs) && fs.written == old(fs.written)
      ensures CanExport() ==> fs.dirs == old(fs.dirs) + {rootDir.value}
      ensures CanExport() ==> fs.written == old(fs.written) + [Written(TargetPath(now, suffix), SavedFrame(data))]
    {
      ExportPayload(SavedFrame(data), suffix, now, fs);
    }

    /** `export_ndarray(data, suffix)` */
    method ExportNdarray(data: Grid, suffix: string, now: DateTime, fs: FileSystem)
      requires ValidDateTime(now)
      modifies fs
      ensures !CanExport() ==> fs.dirs == old(fs.dirs) && fs.written == old(fs.written)
      ensures CanExport() ==> fs.dirs == old(fs.dirs) + {rootDir.value}
      ensures CanExport() ==> fs.written == old(fs.written) + [Written(TargetPath(now, suffix), SavedArray(data))]
    {
      ExportPayload(SavedArray(data), suffix, now, fs);
    }
  }
}
