/** The size guard of the create and update paths: the first token of
    `du -sh` output, cut at the unit letter, read with `int()` and compared
    with the layer limit. */
module SizeGuard {
  import opened Py
  import opened PyText

  /** Sizes at or above this many units are refused. */
  const LimitMB: int := 250

  const OverLimitMessage: string :=
    "Layer size is over limit, please consider removing unnecessary libraries"

  /** The update path cuts the token at `M`; the create path cuts it at
      `M` and then at `K`. */
  datatype Path = CreatePath | UpdatePath

  datatype Verdict = Fits(size: int) | OverLimit(size: int)

  /** The part of the `du` token handed to `int()`: the token up to its
      first `M` (on the create path, up to its first `M` or `K`). */
  function SizeField(token: string, path: Path): (f: string)
    ensures f <= token && 'M' !in f
    ensures path == CreatePath ==> 'K' !in f
    ensures path == UpdatePath ==> |f| == |token| || token[|f|] == 'M'
    ensures path == CreatePath ==> |f| == |token| || token[|f|] == 'M' || token[|f|] == 'K'
  {
    match path
    case UpdatePath => BeforeFirst(token, 'M')
    case CreatePath => BeforeFirst(BeforeFirst(token, 'M'), 'K')
  }

  /** The guard on one `du` token: a ValueError when the cut token is not
      an integer, otherwise the size, refused when it is at least the
      limit. */
  function CheckToken(token: string, path: Path): (r: Result<Verdict>)
    ensures r.Ok? <==> ParseInt(SizeField(token, path)).Ok?
    ensures r.Err? ==> r.error == ValueError
    ensures r.Ok? ==> r.value.size == ParseInt(SizeField(token, path)).value
    ensures r.Ok? ==> (r.value.OverLimit? <==> r.value.size >= LimitMB)
  {
    match ParseInt(SizeField(token, path))
    case Err(e) => Err(e)
    case Ok(n) => Ok(if n >= LimitMB then OverLimit(n) else Fits(n))
  }

  /** The guard on `du -sh` output: its first token decides, and output
      without a token raises an IndexError. */
  function CheckSize(duOutput: string, path: Path): (r: Result<Verdict>)
    ensures r == Err(IndexError) <==> Split(duOutput) == []
    ensures Split(duOutput) != [] ==> r == CheckToken(Split(duOutput)[0], path)
  {
    var tokens := Split(duOutput);
    if tokens == [] then Err(IndexError) else CheckToken(tokens[0], path)
  }

  /** What `du` prints: a size, a unit letter, then whitespace and the path. */
  function DuLine(size: nat, unit: char, rest: string): string {
    DecimalString(size) + [unit] + rest
  }

  /** The first token of a `du` line is the size with its unit. */
  lemma DuLineToken(size: nat, unit: char, rest: string)
    requires !IsSpace(unit)
    requires rest == [] || IsSpace(rest[0])
    ensures Split(DuLine(size, unit, rest)) != []
    ensures Split(DuLine(size, unit, rest))[0] == DecimalString(size) + [unit]
  {
    var tok := DecimalString(size) + [unit];
    assert IsToken(tok) by {
      assert forall i :: 0 <= i < |DecimalString(size)| ==> tok[i] == DecimalString(size)[i];
    }
    assert DuLine(size, unit, rest) == tok + rest;
    SplitHead(tok, rest);
  }

  /** A size in megabytes is read as it is printed, on both paths. */
  lemma MegabyteToken(size: nat, path: Path)
    ensures CheckToken(DecimalString(size) + "M", path)
      == Ok(if size >= LimitMB then OverLimit(size) else Fits(size))
  {
    var digits := DecimalString(size);
    BeforeFirstAt(digits, 'M', []);
    assert digits + "M" == digits + ['M'] + [];
    BeforeFirstAbsent(digits, 'K');
    ParseDecimal(size);
  }

  /** On the create path a size in kilobytes is read unscaled. */
  lemma KilobyteTokenCreate(size: nat)
    ensures CheckToken(DecimalString(size) + "K", CreatePath)
      == Ok(if size >= LimitMB then OverLimit(size) else Fits(size))
  {
    var digits := DecimalString(size);
    var tok := digits + "K";
    assert 'M' !in tok;
    BeforeFirstAbsent(tok, 'M');
    BeforeFirstAt(digits, 'K', []);
    assert tok == digits + ['K'] + [];
    ParseDecimal(size);
  }

  /** On the update path a size in kilobytes is not an integer. */
  lemma KilobyteTokenUpdate(size: nat)
    ensures CheckToken(DecimalString(size) + "K", UpdatePath) == Err(ValueError)
  {
    var digits := DecimalString(size);
    var tok := digits + "K";
    assert 'M' !in tok;
    BeforeFirstAbsent(tok, 'M');
    assert tok[|digits|] == 'K';
    ParseRejects(tok, |digits|);
  }

  /** A `du` line in megabytes is refused exactly when its size is at
      least the limit, on both paths. */
  lemma MegabytesDecide(size: nat, rest: string, path: Path)
    requires rest == [] || IsSpace(rest[0])
    ensures CheckSize(DuLine(size, 'M', rest), path)
      == Ok(if size >= LimitMB then OverLimit(size) else Fits(size))
  {
    DuLineToken(size, 'M', rest);
    MegabyteToken(size, path);
  }

  /** A `du` line in kilobytes: compared with the limit unscaled on the
      create path, a ValueError on the update path. */
  lemma KilobytesUnscaled(size: nat, rest: string)
    requires rest == [] || IsSpace(rest[0])
    ensures CheckSize(DuLine(size, 'K', rest), CreatePath)
      == Ok(if size >= LimitMB then OverLimit(size) else Fits(size))
    ensures CheckSize(DuLine(size, 'K', rest), UpdatePath) == Err(ValueError)
  {
    DuLineToken(size, 'K', rest);
    KilobyteTokenCreate(size);
    KilobyteTokenUpdate(size);
  }

  /** `250M` is refused and `249M` passes. */
  lemma Boundary(path: Path)
    ensures CheckSize("250M\t/tmp/python\n", path) == Ok(OverLimit(250))
    ensures CheckSize("249M\t/tmp/python\n", path) == Ok(Fits(249))
  {
    assert DecimalString(250) == "250";
    assert DecimalString(249) == "249";
    assert DuLine(250, 'M', "\t/tmp/python\n") == "250M\t/tmp/python\n";
    assert DuLine(249, 'M', "\t/tmp/python\n") == "249M\t/tmp/python\n";
    MegabytesDecide(250, "\t/tmp/python\n", path);
    MegabytesDecide(249, "\t/tmp/python\n", path);
  }

  /** `300K` on the create path is read as 300 and refused. */
  lemma KilobyteExample()
    ensures CheckSize("300K\t/tmp/python\n", CreatePath) == Ok(OverLimit(300))
  {
    assert DecimalString(300) == "300";
    assert DuLine(300, 'K', "\t/tmp/python\n") == "300K\t/tmp/python\n";
    KilobytesUnscaled(300, "\t/tmp/python\n");
  }

  /** A fractional or gigabyte size is not an integer: `int()` raises. */
  lemma FractionalTokensFail(path: Path)
    ensures CheckToken("1.5M", path) == Err(ValueError)
    ensures CheckToken("1.2G", path) == Err(ValueError)
  {
    BeforeFirstAt("1.5", 'M', []);
    assert "1.5M" == "1.5" + ['M'] + [];
    BeforeFirstAbsent("1.5", 'K');
    BeforeFirstAbsent("1.2G", 'M');
    BeforeFirstAbsent("1.2G", 'K');
    ParseRejects("1.5", 1);
    ParseRejects("1.2G", 1);
  }

  lemma FractionalSizesFail(path: Path)
    ensures CheckSize("1.5M\t/tmp/python\n", path) == Err(ValueError)
    ensures CheckSize("1.2G\t/tmp/python\n", path) == Err(ValueError)
  {
    var rest := "\t/tmp/python\n";
    assert "1.5M\t/tmp/python\n" == "1.5M" + rest;
    assert "1.2G\t/tmp/python\n" == "1.2G" + rest;
    assert IsToken("1.5M") && IsToken("1.2G");
    SplitHead("1.5M", rest);
    SplitHead("1.2G", rest);
    FractionalTokensFail(path);
  }
}
