/** The package-listing parser of the read-only action: `pip list` output
    split on whitespace, a four-token header dropped, and the remaining
    tokens paired into a name-to-version dictionary. */
module PackageListing {
  import opened Py
  import opened PyText

  /** A Python dictionary from package name to version: its keys in
      insertion order, and the value stored under each. */
  datatype Listing = Listing(names: seq<string>, versions: map<string, string>)

  /** The keys are listed once each, and are exactly the keys of the map. */
  ghost predicate Valid(l: Listing) {
    && (forall i, j :: 0 <= i < j < |l.names| ==> l.names[i] != l.names[j])
    && (forall k :: k in l.versions <==> k in l.names)
  }

  const Empty: Listing := Listing([], map[])

  /** `d[name] = version`. */
  function Assign(l: Listing, name: string, version: string): Listing
  {
    if name in l.versions then Listing(l.names, l.versions[name := version])
    else Listing(l.names + [name], l.versions[name := version])
  }

  /** Assignment maps the key to the version, leaves every other key as it
      was, keeps the key order and puts a new key last. */
  lemma AssignFacts(l: Listing, name: string, version: string)
    requires Valid(l)
    ensures var r := Assign(l, name, version);
      && Valid(r)
      && name in r.versions && r.versions[name] == version
      && (forall k :: k != name ==> (k in r.versions <==> k in l.versions))
      && (forall k :: k != name && k in l.versions ==> r.versions[k] == l.versions[k])
      && l.names <= r.names && |r.names| <= |l.names| + 1
  {
    var r := Assign(l, name, version);
    if name !in l.versions {
      assert name !in l.names;
      assert forall i :: 0 <= i < |l.names| ==> r.names[i] == l.names[i];
    }
  }

  /** `tokens[4:]`: the tokens after the header, none if there are at
      most four. */
  function AfterHeader(tokens: seq<string>): (b: seq<string>)
    ensures |tokens| <= 4 ==> b == []
    ensures |tokens| > 4 ==> tokens == tokens[..4] + b
  {
    if |tokens| <= 4 then [] else tokens[4..]
  }

  /** The name of the `i`-th pair of tokens. */
  function NameAt(b: seq<string>, i: nat): string
    requires 2 * i + 1 < |b|
  {
    b[2 * i]
  }

  /** The version of the `i`-th pair of tokens. */
  function VersionAt(b: seq<string>, i: nat): string
    requires 2 * i + 1 < |b|
  {
    b[2 * i + 1]
  }

  /** The dictionary built by assigning the pairs of `b` in order. */
  function PairUp(b: seq<string>): Listing
    requires |b| % 2 == 0
  {
    if b == [] then Empty
    else Assign(PairUp(b[..|b| - 2]), b[|b| - 2], b[|b| - 1])
  }

  /** What the read-only action returns for a listing text, or the
      IndexError it raises when a name is left without a version. */
  function ListingOf(text: string): (r: Result<Listing>)
    ensures r.Err? ==> r.error == IndexError
    ensures r.Ok? <==> |AfterHeader(Split(text))| % 2 == 0
  {
    PairTokens(Split(text))
  }

  /** The same, given the tokens of the listing text. */
  function PairTokens(tokens: seq<string>): (r: Result<Listing>)
    ensures r.Err? ==> r.error == IndexError
    ensures r.Ok? <==> |AfterHeader(tokens)| % 2 == 0
  {
    var b := AfterHeader(tokens);
    if |b| % 2 == 0 then Ok(PairUp(b)) else Err(IndexError)
  }

  /** The pairing loop of the read-only action. */
  method ReadListing(text: string) returns (r: Result<Listing>)
    ensures r == ListingOf(text)
  {
    var tokens := Split(text);
    var libraries := AfterHeader(tokens);
    var listing := Empty;
    var count := 0;
    assert libraries[..count] == [];
    while count != |libraries|
      invariant 0 <= count <= |libraries| && count % 2 == 0
      invariant listing == PairUp(libraries[..count])
      decreases |libraries| - count
    {
      var countVal := count + 1;
      if countVal >= |libraries| {
        return Err(IndexError);
      }
      PairUpStep(libraries, count);
      listing := Assign(listing, libraries[count], libraries[countVal]);
      count := countVal + 1;
    }
    assert libraries[..count] == libraries;
    return Ok(listing);
  }

  /** One more pair is one more assignment. */
  lemma PairUpStep(b: seq<string>, count: nat)
    requires count % 2 == 0 && count + 2 <= |b|
    ensures PairUp(b[..count + 2]) == Assign(PairUp(b[..count]), b[count], b[count + 1])
  {
    assert b[..count + 2][..count] == b[..count];
  }

  /** The dictionary built from the pairs is well formed. */
  lemma {:induction false} PairUpValid(b: seq<string>)
    requires |b| % 2 == 0
    ensures Valid(PairUp(b))
  {
    if b != [] {
      PairUpValid(b[..|b| - 2]);
      AssignFacts(PairUp(b[..|b| - 2]), b[|b| - 2], b[|b| - 1]);
    }
  }

  /** A name is a key of the dictionary exactly when it is the name of
      some pair. */
  lemma {:induction false} PairUpKeys(b: seq<string>, k: string)
    requires |b| % 2 == 0
    ensures k in PairUp(b).versions <==> exists i: nat :: 2 * i + 1 < |b| && NameAt(b, i) == k
  {
    if b != [] {
      var front := b[..|b| - 2];
      PairUpKeys(front, k);
      var last: nat := (|b| - 2) / 2;
      assert NameAt(b, last) == b[|b| - 2];
      forall i: nat | 2 * i + 1 < |front|
        ensures NameAt(front, i) == NameAt(b, i)
      {
      }
      if k in PairUp(b).versions && k != b[|b| - 2] {
        var i: nat :| 2 * i + 1 < |front| && NameAt(front, i) == k;
        assert NameAt(b, i) == k;
      }
      if exists i: nat :: 2 * i + 1 < |b| && NameAt(b, i) == k {
        var i: nat :| 2 * i + 1 < |b| && NameAt(b, i) == k;
        if i < last {
          assert NameAt(front, i) == k;
        }
      }
    }
  }

  /** A repeated name keeps the version of its last pair. */
  lemma {:induction false} PairUpLatest(b: seq<string>, i: nat)
    requires |b| % 2 == 0 && 2 * i + 1 < |b|
    requires forall j: nat :: i < j && 2 * j + 1 < |b| ==> NameAt(b, j) != NameAt(b, i)
    ensures NameAt(b, i) in PairUp(b).versions
    ensures PairUp(b).versions[NameAt(b, i)] == VersionAt(b, i)
  {
    var last: nat := (|b| - 2) / 2;
    if i < last {
      var front := b[..|b| - 2];
      assert NameAt(front, i) == NameAt(b, i);
      forall j: nat | i < j && 2 * j + 1 < |front|
        ensures NameAt(front, j) != NameAt(front, i)
      {
        assert NameAt(front, j) == NameAt(b, j);
      }
      PairUpLatest(front, i);
      assert NameAt(b, last) == b[|b| - 2];
    }
  }

  /** Text of at most four tokens (the header alone) gives an empty
      dictionary. */
  lemma HeaderOnly(tokens: seq<string>)
    requires |tokens| <= 4
    ensures PairTokens(tokens) == Ok(Empty)
  {
  }

  /** The parse fails exactly when an odd number of tokens follows the
      header: the last name has no version and indexing past it raises. */
  lemma PairTokensFails(tokens: seq<string>)
    ensures PairTokens(tokens).Err? <==> |tokens| > 4 && (|tokens| - 4) % 2 == 1
    ensures PairTokens(tokens).Err? ==> PairTokens(tokens).error == IndexError
  {
  }

  /** Pairing the tokens of `Package Version ---- ---- foo 1.0 bar 2.3`.
      */
  lemma PairTokensExample()
    ensures PairTokens(ExampleTokens)
      == Ok(Listing(["foo", "bar"], map["foo" := "1.0", "bar" := "2.3"]))
  {
    var b := ["foo", "1.0", "bar", "2.3"];
    assert AfterHeader(ExampleTokens) == b;
    assert b[..2] == ["foo", "1.0"];
    assert b[..2][..0] == [];
    var first := Listing(["foo"], map["foo" := "1.0"]);
    assert PairUp(b[..2]) == first;
    assert "bar" !in first.versions;
    assert PairUp(b) == Listing(["foo", "bar"], first.versions["bar" := "2.3"]);
    assert first.versions["bar" := "2.3"] == map["foo" := "1.0", "bar" := "2.3"];
  }

  /** The header `Package Version ---- ----` and two packages, written out. */
  const ExampleHeader: seq<string> := ["Package", "Version", "----", "----"]
  const ExamplePackages: seq<string> := ["foo", "1.0", "bar", "2.3"]
  const ExampleTokens: seq<string> := ExampleHeader + ExamplePackages

  lemma ExampleHeaderText()
    ensures JoinSpaced(ExampleHeader) == "Package Version ---- ----"
  {
  }

  lemma ExamplePackagesText()
    ensures JoinSpaced(ExamplePackages) == "foo 1.0 bar 2.3"
  {
  }

  lemma ExampleText()
    ensures JoinSpaced(ExampleTokens) == "Package Version ---- ---- foo 1.0 bar 2.3"
  {
    JoinSpacedAppend(ExampleHeader, ExamplePackages);
    ExampleHeaderText();
    ExamplePackagesText();
  }

  /** The listing `Package Version ---- ---- foo 1.0 bar 2.3` gives
      `{"foo": "1.0", "bar": "2.3"}`. */
  lemma ListingOfExample()
    ensures ListingOf("Package Version ---- ---- foo 1.0 bar 2.3")
      == Ok(Listing(["foo", "bar"], map["foo" := "1.0", "bar" := "2.3"]))
  {
    var ws := ExampleTokens;
    assert forall i | 0 <= i < |ws| :: IsToken(ws[i]);
    SplitJoin(ws);
    ExampleText();
    PairTokensExample();
  }
}
