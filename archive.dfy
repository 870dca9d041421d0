/**
 * The naming of archived sets in server/api.go's `newSetHandler`: the
 * directory `csv/sets/<device>/` holds one file per finished set, called
 * `<n>.csv`, and a rotation copies the active log into the next such file.
 *
 * The handler picks the next number from the LAST entry `ioutil.ReadDir`
 * returns, and ReadDir sorts by name, byte by byte. That is the numeric
 * maximum only while every number has one digit: with "1.csv" .. "10.csv"
 * present the last entry is "9.csv", and the tenth rotation reopens
 * "10.csv". `NextNameAsWritten` models the code as written and
 * `AsWrittenCollidesAtTen` exhibits the collision; `NextNumber` is the
 * numeric maximum plus one, which the handler model uses.
 * `AsWrittenAgreesBelowTen` shows the two rules pick the same name while
 * a device has at most nine archives and nothing else in its directory.
 */
module Archive {
  import opened Common
  import opened Text

  /** The number an archive file name stands for: the text before its first '.', read by `strconv.Atoi`. */
  function ArchiveNumber(name: string): Option<int>
  {
    Atoi(Split(name, '.')[0])
  }

  /** The file name of archive `n`. */
  function ArchiveName(n: int): string
  {
    Itoa(n) + ".csv"
  }

  lemma NoDotInItoa(n: int)
    ensures '.' !in Itoa(n)
  {
    if n < 0 {
      assert Itoa(n)[1..] == Digits(-n);
    }
  }

  /** The name of archive `n` reads back as `n`, exactly when `n` fits in 64 bits. */
  lemma ArchiveNumberOfName(n: int)
    ensures ArchiveNumber(ArchiveName(n)) == if Int64Min <= n <= Int64Max then Some(n) else None
  {
    NoDotInItoa(n);
    assert ArchiveName(n) == Itoa(n) + ['.'] + "csv";
    SplitAtSeparator(Itoa(n), "csv", '.');
    AtoiItoa(n);
  }

  lemma ArchiveNameInjective(m: int, n: int)
    requires Int64Min <= m <= Int64Max && Int64Min <= n <= Int64Max
    requires ArchiveName(m) == ArchiveName(n)
    ensures m == n
  {
    ArchiveNumberOfName(m);
    ArchiveNumberOfName(n);
  }

  /** The directory after `k` rotations: the archives "1.csv" to "<k>.csv". */
  function Archives(k: nat): set<string>
  {
    set i | 1 <= i <= k :: ArchiveName(i)
  }

  // ---------------------------------------------------------------------------
  // As written

  /** Go's `newFileName++` on a 64-bit int. */
  function Increment64(v: int): int
  {
    if v == Int64Max then Int64Min else v + 1
  }

  /**
   * The file name the handler opens: "1.csv" in an empty directory, else the
   * number of the last entry in byte order plus one; None where it calls
   * `log.Fatal` because that entry does not start with a number.
   */
  ghost function NextNameAsWritten(dir: set<string>): Option<string>
  {
    if dir == {} then Some("1.csv")
    else
      match ArchiveNumber(Last(dir))
      case None => None
      case Some(v) => Some(ArchiveName(Increment64(v)))
  }

  lemma ArchiveNameDigit(i: nat)
    requires 1 <= i <= 9
    ensures ArchiveName(i) == [DigitChar(i)] + ".csv"
  {
  }

  /** With at most nine archives the last name is the highest number, so the new name is fresh. */
  lemma AsWrittenFreshBelowTen(k: nat)
    requires k <= 9
    ensures NextNameAsWritten(Archives(k)) == Some(ArchiveName(k + 1))
    ensures ArchiveName(k + 1) !in Archives(k)
  {
    forall i | 1 <= i <= k ensures ArchiveName(i) != ArchiveName(k + 1) {
      if ArchiveName(i) == ArchiveName(k + 1) {
        ArchiveNameInjective(i, k + 1);
      }
    }
    if k == 0 {
      assert Archives(k) == {};
      assert ArchiveName(1) == "1.csv";
    } else {
      var dir := Archives(k);
      var m := ArchiveName(k);
      assert m in dir;
      forall x | x in dir ensures !Less(m, x) {
        var i :| 1 <= i <= k && x == ArchiveName(i);
        ArchiveNameDigit(i);
        ArchiveNameDigit(k);
        assert x[0] == DigitChar(i) && m[0] == DigitChar(k);
        if i == k {
          LessIrreflexive(m);
        }
      }
      LastUnique(dir, m, Last(dir));
      ArchiveNumberOfName(k);
    }
  }

  /** With ten archives, the last entry in byte order is "9.csv", and the name picked is "10.csv", which exists. */
  lemma AsWrittenCollidesAtTen()
    ensures NextNameAsWritten(Archives(10)) == Some("10.csv")
    ensures "10.csv" in Archives(10)
  {
    var dir := Archives(10);
    var m := ArchiveName(9);
    assert m == "9.csv";
    assert ArchiveName(10) == "10.csv";
    assert m in dir;
    forall x | x in dir ensures !Less(m, x) {
      var i :| 1 <= i <= 10 && x == ArchiveName(i);
      if i == 10 {
        assert x[0] == '1';
      } else {
        ArchiveNameDigit(i);
        assert x[0] == DigitChar(i);
        if i == 9 {
          LessIrreflexive(m);
        }
      }
    }
    LastUnique(dir, m, Last(dir));
    ArchiveNumberOfName(9);
  }

  /**
   * `os.OpenFile` with O_CREATE and without O_TRUNC, followed by `io.Copy`:
   * the data overwrites the start of whatever the file held.
   */
  function WriteOver(previous: string, data: string): (r: string)
    ensures |r| == if |previous| > |data| then |previous| else |data|
    ensures r[..|data|] == data
  {
    if |previous| > |data| then data + previous[|data|..] else data
  }

  /** One rotation as written: the archive directory after copying `log` into the picked name. */
  ghost function RotateAsWritten(dir: map<string, string>, log: string): Option<map<string, string>>
  {
    match NextNameAsWritten(dir.Keys)
    case None => None
    case Some(name) => Some(dir[name := WriteOver(if name in dir then dir[name] else "", log)])
  }

  /**
   * The tenth rotation as written adds no file: it writes the active log over
   * the start of the tenth set, and what that set held beyond the log's
   * length is left behind it.
   */
  lemma AsWrittenRotationLosesSetTen(dir: map<string, string>, log: string)
    requires dir.Keys == Archives(10)
    ensures "10.csv" in dir
    ensures RotateAsWritten(dir, log).Some?
    ensures RotateAsWritten(dir, log).value.Keys == dir.Keys
    ensures RotateAsWritten(dir, log).value["10.csv"] == WriteOver(dir["10.csv"], log)
    ensures RotateAsWritten(dir, log).value["10.csv"][..|log|] == log
    ensures |dir["10.csv"]| > |log| ==>
              RotateAsWritten(dir, log).value["10.csv"][|log|..] == dir["10.csv"][|log|..]
  {
    AsWrittenCollidesAtTen();
  }

  /**
   * While a device has at most nine archives and nothing else in its
   * directory, the rule as written and the corrected rule pick the same new
   * name, and the rotation as written just adds the log under it.
   */
  lemma AsWrittenAgreesBelowTen(dir: map<string, string>, log: string, k: nat)
    requires dir.Keys == Archives(k) && k <= 9
    ensures NextNumber(dir.Keys) == Some(k + 1)
    ensures NextNameAsWritten(dir.Keys) == Some(ArchiveName(k + 1))
    ensures RotateAsWritten(dir, log) == Some(dir[ArchiveName(k + 1) := log])
  {
    AsWrittenFreshBelowTen(k);
    NextNumberConsecutive(k);
  }

  // ---------------------------------------------------------------------------
  // Corrected

  /** The entries of the directory whose name starts with a number. */
  function Numbered(dir: set<string>): set<string>
  {
    set e | e in dir && ArchiveNumber(e).Some?
  }

  /** Every entry of the directory starts with a number. */
  predicate AllNumbered(dir: set<string>)
  {
    forall e :: e in dir ==> ArchiveNumber(e).Some?
  }

  /** `e` is an entry whose number is the highest in the directory. */
  predicate IsTop(dir: set<string>, e: string)
  {
    && e in dir && ArchiveNumber(e).Some?
    && forall x :: x in dir && ArchiveNumber(x).Some? ==> ArchiveNumber(x).value <= ArchiveNumber(e).value
  }

  lemma {:induction false} TopExists(dir: set<string>)
    requires dir != {} && AllNumbered(dir)
    ensures exists e :: IsTop(dir, e)
    decreases |dir|
  {
    var x :| x in dir;
    var rest := dir - {x};
    if rest == {} {
      assert dir == {x};
      assert IsTop(dir, x);
    } else {
      TopExists(rest);
      var m :| IsTop(rest, m);
      var top := if ArchiveNumber(m).value < ArchiveNumber(x).value then x else m;
      forall z | z in dir && ArchiveNumber(z).Some?
        ensures ArchiveNumber(z).value <= ArchiveNumber(top).value
      {
        if z != x {
          assert z in rest;
        }
      }
      assert IsTop(dir, top);
    }
  }

  /** A directory with some numbered entry has a highest one. */
  lemma NumberedTopExists(dir: set<string>)
    requires Numbered(dir) != {}
    ensures exists e :: IsTop(dir, e)
  {
    TopExists(Numbered(dir));
    var e :| IsTop(Numbered(dir), e);
    assert IsTop(dir, e);
  }

  /**
   * The number of the next archive: one more than the highest number in the
   * directory, entries that are not numbers being passed over; 1 when there
   * is none. None (the handler's `log.Fatal`) only when the highest number is
   * the largest 64-bit one, so that its successor has no 64-bit name.
   */
  ghost function NextNumber(dir: set<string>): (r: Option<int>)
    ensures Numbered(dir) == {} ==> r == Some(1)
    ensures forall e :: IsTop(dir, e) ==> r == Successor(ArchiveNumber(e).value)
  {
    if Numbered(dir) == {} then
      TopIsNumbered(dir);
      Some(1)
    else
      Successor(TopNumber(dir))
  }

  /** The number after `n`, when it still fits in 64 bits. */
  function Successor(n: int): (r: Option<int>)
  {
    if n < Int64Max then Some(n + 1) else None
  }

  /** A highest entry is a numbered one. */
  lemma TopIsNumbered(dir: set<string>)
    ensures forall e :: IsTop(dir, e) ==> e in Numbered(dir)
  {
  }

  /** The highest number in a directory with some numbered entry. */
  ghost function TopNumber(dir: set<string>): (top: int)
    requires Numbered(dir) != {}
    ensures forall e :: IsTop(dir, e) ==> ArchiveNumber(e).value == top
  {
    NumberedTopExists(dir);
    var e :| IsTop(dir, e);
    ArchiveNumber(e).value
  }

  /** Computes `NextNumber`. */
  method NextArchiveNumber(dir: set<string>) returns (r: Option<int>)
    ensures r == NextNumber(dir)
  {
    var numbered := set e | e in dir && ArchiveNumber(e).Some?;
    if numbered == {} {
      return Some(1);
    }
    NumberedTopExists(dir);
    var e :| IsTop(dir, e);
    r := Successor(ArchiveNumber(e).value);
  }

  /** The next name never names an archive already there. */
  lemma NextNumberFresh(dir: set<string>)
    requires NextNumber(dir).Some?
    ensures ArchiveName(NextNumber(dir).value) !in dir
    ensures Int64Min < NextNumber(dir).value <= Int64Max
  {
    if Numbered(dir) == {} {
      ArchiveNumberOfName(1);
      assert ArchiveName(1) !in Numbered(dir);
    } else {
      NumberedTopExists(dir);
      var e :| IsTop(dir, e);
      var n := NextNumber(dir).value;
      ArchiveNumberOfName(n);
    }
  }

  /** A stray entry that is not a number does not stop the count: {".keep", "1.csv"} gives 2. */
  lemma NextNumberSkipsStray()
    ensures NextNumber({".keep", "1.csv"}) == Some(2)
  {
    var dir := {".keep", "1.csv"};
    assert ArchiveName(1) == "1.csv";
    ArchiveNumberOfName(1);
    DotFileNotNumbered("keep");
    assert IsTop(dir, "1.csv");
    NextNumberOfTop(dir, "1.csv");
  }

  /** A name that starts with a dot has no number. */
  lemma DotFileNotNumbered(rest: string)
    ensures ArchiveNumber(['.'] + rest) == None
  {
    assert ['.'] + rest == "" + ['.'] + rest;
    SplitAtSeparator("", rest, '.');
    assert Atoi("") == None;
  }

  /** Every archive after `k` rotations reads back as its number, between 1 and `k`. */
  lemma ArchivesNumbered(k: nat)
    requires k <= Int64Max
    ensures forall e :: e in Archives(k) ==> ArchiveNumber(e).Some? && 1 <= ArchiveNumber(e).value <= k
  {
    forall e | e in Archives(k) ensures ArchiveNumber(e).Some? && 1 <= ArchiveNumber(e).value <= k {
      var i :| 1 <= i <= k && e == ArchiveName(i);
      ArchiveNumberOfName(i);
    }
  }

  /** The archives after `k + 1` rotations are those after `k` and the file of number k + 1. */
  lemma ArchivesGrow(k: nat)
    ensures Archives(k + 1) == Archives(k) + {ArchiveName(k + 1)}
  {
  }

  /** Any entry with the highest number determines the next number. */
  lemma NextNumberOfTop(dir: set<string>, e: string)
    requires IsTop(dir, e) && ArchiveNumber(e).value < Int64Max
    ensures NextNumber(dir) == Some(ArchiveNumber(e).value + 1)
  {
  }

  /** After `k` rotations the highest archive is number `k`. */
  lemma TopOfArchives(k: nat)
    requires 1 <= k <= Int64Max
    ensures AllNumbered(Archives(k)) && IsTop(Archives(k), ArchiveName(k))
  {
    ArchivesNumbered(k);
    ArchiveNumberOfName(k);
    assert ArchiveName(k) in Archives(k);
  }

  /** After as many rotations as there are positive 64-bit numbers, there is no next number. */
  lemma NoNumberAfterLast(k: nat)
    requires k == Int64Max
    ensures NextNumber(Archives(k)) == None
  {
    TopOfArchives(k);
    ArchiveNumberOfName(k);
  }

  /** After `k` rotations the next number is k + 1. */
  lemma NextNumberConsecutive(k: nat)
    requires k < Int64Max
    ensures NextNumber(Archives(k)) == Some(k + 1)
  {
    if k > 0 {
      TopOfArchives(k);
      ArchiveNumberOfName(k);
      NextNumberOfTop(Archives(k), ArchiveName(k));
    } else {
      assert Archives(k) == {};
      assert Numbered(Archives(k)) == {};
    }
  }
}
