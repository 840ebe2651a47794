// CountryDataSeederImpl: at start-up, fill the empty countries table from
// the country service's response. The fetch itself is a parameter (the
// decoded responses, in the order the service sent them), and so is the
// value of the seeder.countries.exclude property.

module CountrySeeder {
  import opened Common
  import opened Entities
  import opened Database

  datatype Flags = Flags(svg: Option<string>, png: Option<string>)

  datatype Currency = Currency(code: Option<string>, name: Option<string>, symbol: Option<string>)

  /** CountryApiResponse; every field is nullable, and so is every element
      of its two lists. */
  datatype CountryApiResponse = CountryApiResponse(
    name: Option<string>,
    alpha2Code: Option<string>,
    alpha3Code: Option<string>,
    callingCodes: Option<seq<Option<string>>>,
    flags: Option<Flags>,
    currencies: Option<seq<Option<Currency>>>)

  // The @Builder.Default values of the currency columns.
  const DefaultCurrencyCode: string := "NCN"
  const DefaultCurrencyName: string := "No Currency Name"
  const DefaultCurrencySymbol: string := "$"

  // ---------------------------------------------------------------------
  // The excluded names: '${seeder.countries.exclude:}'.split(',')
  // ---------------------------------------------------------------------

  /** The text between the commas, every piece kept, empty ones included. */
  function Pieces(s: string): (r: seq<string>)
    ensures |r| >= 1
  {
    if s == [] then [""]
    else
      var rest := Pieces(s[1..]);
      if s[0] == ',' then [""] + rest
      else [[s[0]] + rest[0]] + rest[1..]
  }

  /** The pieces put back together with commas between them. */
  function JoinCommas(ps: seq<string>): string
    requires |ps| >= 1
  {
    if |ps| == 1 then ps[0] else ps[0] + "," + JoinCommas(ps[1..])
  }

  /** Cutting at the commas loses nothing, and no piece holds a comma. */
  lemma {:induction false} PiecesRoundTrip(s: string)
    ensures JoinCommas(Pieces(s)) == s
    ensures forall p :: p in Pieces(s) ==> ',' !in p
  {
    if s != [] {
      var rest := Pieces(s[1..]);
      PiecesRoundTrip(s[1..]);
      if s[0] == ',' {
        assert Pieces(s)[1..] == rest;
      } else {
        var ps := Pieces(s);
        assert ps[0] == [s[0]] + rest[0];
        assert rest[0] in rest;
        if |rest| > 1 {
          assert ps[1..] == rest[1..];
          assert JoinCommas(rest) == rest[0] + "," + JoinCommas(rest[1..]);
        }
        forall p | p in ps
          ensures ',' !in p
        {
          if p != ps[0] {
            assert p in rest;
          }
        }
      }
    }
  }

  /** String.split's removal of the trailing empty strings. */
  function DropTrailingEmpty(ps: seq<string>): (r: seq<string>)
    ensures |r| <= |ps| && r == ps[..|r|]
    ensures r != [] ==> r[|r| - 1] != ""
    ensures forall k :: |r| <= k < |ps| ==> ps[k] == ""
  {
    if ps == [] then []
    else if ps[|ps| - 1] == "" then DropTrailingEmpty(ps[..|ps| - 1])
    else ps
  }

  /** String.split(","): the whole string when it has no comma, otherwise
      the pieces without the empty ones at the end. */
  function SplitCommas(s: string): seq<string>
  {
    if ',' !in s then [s] else DropTrailingEmpty(Pieces(s))
  }

  /** The @Value expression collected into a Set. */
  function ExcludedNames(property: string): set<string>
  {
    set p | p in SplitCommas(property)
  }

  /** Every non-empty name listed in the property is excluded, and nothing
      else: each excluded name is one of the comma-separated pieces. */
  lemma ExcludedNamesAreThePieces(property: string)
    ensures forall p :: p in Pieces(property) && p != "" ==> p in ExcludedNames(property)
    ensures forall p :: p in ExcludedNames(property) ==> p in Pieces(property) && ',' !in p
  {
    PiecesRoundTrip(property);
    var ps := Pieces(property);
    if ',' !in property {
      NoCommaOnePiece(property);
    } else {
      var r := DropTrailingEmpty(ps);
      forall p | p in ps && p != ""
        ensures p in r
      {
        var k :| 0 <= k < |ps| && ps[k] == p;
        assert ps[k] == r[k];
      }
    }
  }

  lemma {:induction false} NoCommaOnePiece(s: string)
    requires ',' !in s
    ensures Pieces(s) == [s]
  {
    if s != [] {
      assert s[0] in s;
      assert forall c :: c in s[1..] ==> c in s;
      NoCommaOnePiece(s[1..]);
      assert [s[0]] + s[1..] == s;
    }
  }

  /** With the property unset the set holds only the empty string, so no
      country with a name is excluded. */
  lemma DefaultExcludesNothingNamed()
    ensures ExcludedNames("") == {""}
  {
    assert SplitCommas("") == [""];
  }

  // ---------------------------------------------------------------------
  // transformToEntity
  // ---------------------------------------------------------------------

  /** Country.builder(): name, codes and flag; currency columns at their
      defaults, calling code null. The id is assigned on save. */
  function Built(resp: CountryApiResponse, name: string): Country
  {
    Country(0, name, resp.alpha2Code, resp.alpha3Code,
            if resp.flags.Some? then resp.flags.value.png else None,
            None, Some(DefaultCurrencyCode), Some(DefaultCurrencyName), Some(DefaultCurrencySymbol))
  }

  /** transformToEntity: no country without a name; then the setters for
      the first calling code and the first currency, when there is one. */
  function Transform(resp: CountryApiResponse): (r: Option<Country>)
    ensures r.None? <==> resp.name.None?
    ensures r.Some? ==>
      var c := r.value;
      c.id == 0 && c.name == resp.name.value &&
      c.alpha2Code == resp.alpha2Code && c.alpha3Code == resp.alpha3Code &&
      (resp.flags.None? ==> c.flagUrl.None?) &&
      (resp.flags.Some? ==> c.flagUrl == resp.flags.value.png)
    ensures r.Some? ==>
      (if resp.callingCodes.Some? && |resp.callingCodes.value| > 0
       then r.value.callingCode == resp.callingCodes.value[0]
       else r.value.callingCode.None?)
    ensures r.Some? && resp.currencies.Some? && |resp.currencies.value| > 0 && resp.currencies.value[0].Some? ==>
      var cur := resp.currencies.value[0].value;
      r.value.currencyCode == cur.code && r.value.currencyName == cur.name &&
      r.value.currencySymbol == cur.symbol
    ensures r.Some? && !(resp.currencies.Some? && |resp.currencies.value| > 0 && resp.currencies.value[0].Some?) ==>
      r.value.currencyCode == Some(DefaultCurrencyCode) && r.value.currencyName == Some(DefaultCurrencyName) &&
      r.value.currencySymbol == Some(DefaultCurrencySymbol)
  {
    if resp.name.None? then None
    else
      var c := Built(resp, resp.name.value);
      var c := if resp.callingCodes.Some? && |resp.callingCodes.value| > 0
        then c.(callingCode := resp.callingCodes.value[0]) else c;
      var c := if resp.currencies.Some? && |resp.currencies.value| > 0 && resp.currencies.value[0].Some?
        then var cur := resp.currencies.value[0].value;
          c.(currencyCode := cur.code, currencyName := cur.name, currencySymbol := cur.symbol)
        else c;
      Some(c)
  }

  // ---------------------------------------------------------------------
  // The map / filter / collectList pipeline
  // ---------------------------------------------------------------------

  /** Whether the pipeline keeps a country. */
  predicate Kept(c: Country, excluded: set<string>)
  {
    c.name !in excluded
  }

  /** map(transformToEntity), filter(non-null and not excluded), collectList,
      with a null from the mapper dropped as the filter intends. */
  function Pipeline(responses: seq<CountryApiResponse>, excluded: set<string>): (r: seq<Country>)
    ensures |r| <= |responses|
  {
    if responses == [] then []
    else
      var init := Pipeline(responses[..|responses| - 1], excluded);
      var t := Transform(responses[|responses| - 1]);
      if t.Some? && Kept(t.value, excluded) then init + [t.value] else init
  }

  /** A country comes out of the pipeline exactly when some response with a
      name transforms to it and its name is not excluded. */
  ghost predicate SeededFrom(responses: seq<CountryApiResponse>, excluded: set<string>, c: Country)
  {
    exists resp :: resp in responses && Transform(resp) == Some(c) && Kept(c, excluded)
  }

  lemma {:induction false} PipelineContents(responses: seq<CountryApiResponse>, excluded: set<string>)
    ensures forall c :: c in Pipeline(responses, excluded) <==> SeededFrom(responses, excluded, c)
    ensures forall c :: c in Pipeline(responses, excluded) ==> c.name !in excluded && c.id == 0
  {
    if responses != [] {
      var init := responses[..|responses| - 1];
      var last := responses[|responses| - 1];
      PipelineContents(init, excluded);
      forall c | SeededFrom(responses, excluded, c)
        ensures c in Pipeline(responses, excluded)
      {
        var resp :| resp in responses && Transform(resp) == Some(c) && Kept(c, excluded);
        if resp != last {
          assert resp in init;
          assert SeededFrom(init, excluded, c);
        }
      }
      forall c | c in Pipeline(responses, excluded)
        ensures SeededFrom(responses, excluded, c)
      {
        if c in Pipeline(init, excluded) {
          var resp :| resp in init && Transform(resp) == Some(c) && Kept(c, excluded);
          assert resp in responses;
        } else {
          assert last in responses;
        }
      }
    }
  }

  /** The order of the service's response is kept: the pipeline of a longer
      response extends that of its prefix. */
  lemma {:induction false} PipelinePrefix(responses: seq<CountryApiResponse>, more: seq<CountryApiResponse>, excluded: set<string>)
    ensures Pipeline(responses + more, excluded) == Pipeline(responses, excluded) + Pipeline(more, excluded)
    decreases |more|
  {
    if more == [] {
      assert responses + more == responses;
    } else {
      var init := more[..|more| - 1];
      PipelinePrefix(responses, init, excluded);
      assert (responses + more)[..|responses + more| - 1] == responses + init;
    }
  }

  /** Reactor's map refuses a null from its mapper: the first response
      without a name ends the stream with a NullPointerException, which
      block() rethrows, so nothing is seeded. */
  function PipelineAsWritten(responses: seq<CountryApiResponse>, excluded: set<string>): (r: Option<seq<Country>>)
    ensures r.None? <==> exists k :: 0 <= k < |responses| && responses[k].name.None?
  {
    if responses == [] then Some([])
    else
      var init := PipelineAsWritten(responses[..|responses| - 1], excluded);
      var last := responses[|responses| - 1];
      if init.None? || last.name.None? then None
      else
        var c := Transform(last).value;
        Some(if Kept(c, excluded) then init.value + [c] else init.value)
  }

  /** When every response has a name the two agree. */
  lemma {:induction false} AsWrittenAgrees(responses: seq<CountryApiResponse>, excluded: set<string>)
    requires forall k :: 0 <= k < |responses| ==> responses[k].name.Some?
    ensures PipelineAsWritten(responses, excluded) == Some(Pipeline(responses, excluded))
  {
    if responses != [] {
      AsWrittenAgrees(responses[..|responses| - 1], excluded);
    }
  }

  /** One nameless entry among named ones: as written nothing is seeded;
      the filter's evident intent drops only that entry. */
  lemma NamelessEntryAbortsSeeding()
    ensures var named := CountryApiResponse(Some("Chad"), Some("TD"), Some("TCD"), None, None, None);
      var nameless := CountryApiResponse(None, Some("XX"), Some("XXX"), None, None, None);
      PipelineAsWritten([named, nameless], {""}).None? &&
      |Pipeline([named, nameless], {""})| == 1
  {
    var named := CountryApiResponse(Some("Chad"), Some("TD"), Some("TCD"), None, None, None);
    var nameless := CountryApiResponse(None, Some("XX"), Some("XXX"), None, None, None);
    assert [named, nameless][..1] == [named];
    assert [named][..0] == [];
    assert "Chad" != "";
  }

  // ---------------------------------------------------------------------
  // saveAll and seedCountries
  // ---------------------------------------------------------------------

  /** A NOT NULL column of countries left null. */
  predicate HasNullColumn(c: Country)
  {
    c.alpha2Code.None? || c.alpha3Code.None? || c.flagUrl.None? || c.callingCode.None? ||
    c.currencyCode.None? || c.currencyName.None? || c.currencySymbol.None?
  }

  /** saveAll fails, and rolls back, when a row breaks a NOT NULL column or
      two rows share a unique column (name, alpha-2 or alpha-3 code). */
  predicate SaveAllRejects(batch: seq<Country>)
  {
    (exists i :: 0 <= i < |batch| && HasNullColumn(batch[i])) ||
    (exists i, j :: 0 <= i < j < |batch| &&
       (batch[i].name == batch[j].name || batch[i].alpha2Code == batch[j].alpha2Code ||
        batch[i].alpha3Code == batch[j].alpha3Code))
  }

  /** The identity column: the k-th saved row gets first + k. */
  function Numbered(batch: seq<Country>, first: nat): (r: seq<Country>)
    ensures |r| == |batch|
    ensures forall k :: 0 <= k < |r| ==> r[k] == batch[k].(id := first + k)
  {
    if batch == [] then []
    else
      var init := batch[..|batch| - 1];
      Numbered(init, first) + [batch[|batch| - 1].(id := first + |init|)]
  }

  /** The ids saveAll hands out, one per row, in order. */
  method NumberCountries(db: Db, batch: seq<Country>) returns (saved: seq<Country>)
    requires db.Valid()
    modifies db`nextId
    ensures db.Valid() && db.nextId == old(db.nextId) + |batch|
    ensures saved == Numbered(batch, old(db.nextId))
  {
    saved := [];
    var i := 0;
    while i < |batch|
      invariant 0 <= i <= |batch|
      invariant db.Valid() && db.nextId == old(db.nextId) + i
      invariant saved == Numbered(batch[..i], old(db.nextId))
    {
      var id := db.FreshId();
      assert batch[..i + 1][..i] == batch[..i];
      saved := saved + [batch[i].(id := id)];
      i := i + 1;
    }
    assert batch[..i] == batch;
  }

  lemma NumberedIsTable(batch: seq<Country>, first: nat)
    ensures CountriesOk(Numbered(batch, first), first + |batch|)
  {
    var r := Numbered(batch, first);
    forall x, y | x in r && y in r && CountryKey(x) == CountryKey(y)
      ensures x == y
    {
      var i :| 0 <= i < |r| && r[i] == x;
      var j :| 0 <= j < |r| && r[j] == y;
    }
  }

  datatype SeedOutcome = AlreadySeeded | NothingToSeed | Seeded(count: nat)

  /** seedCountries: skipped when any country exists; otherwise the kept
      countries are saved together, or not at all. */
  method SeedCountries(db: Db, responses: seq<CountryApiResponse>, excluded: set<string>)
    returns (r: Result<SeedOutcome>)
    requires db.Valid()
    modifies db`countries, db`nextId
    ensures db.Valid()
    ensures if |old(db.countries)| > 0 then
        r == Ok(AlreadySeeded) && db.countries == old(db.countries) && db.nextId == old(db.nextId)
      else
        var batch := Pipeline(responses, excluded);
        if batch == [] then
          r == Ok(NothingToSeed) && db.countries == old(db.countries) && db.nextId == old(db.nextId)
        else if SaveAllRejects(batch) then
          r == Err(DataIntegrityViolation) && db.countries == old(db.countries) && db.nextId == old(db.nextId)
        else
          r == Ok(Seeded(|batch|)) && db.countries == Numbered(batch, old(db.nextId)) &&
          db.nextId == old(db.nextId) + |batch|
  {
    if |db.countries| > 0 {
      return Ok(AlreadySeeded);
    }
    var batch := Pipeline(responses, excluded);
    if batch == [] {
      return Ok(NothingToSeed);
    }
    if SaveAllRejects(batch) {
      return Err(DataIntegrityViolation);
    }
    var saved := NumberCountries(db, batch);
    NumberedIsTable(batch, old(db.nextId));
    db.countries := saved;
    r := Ok(Seeded(|batch|));
  }
}
