/**
 * The airport list builder of build_airports_min.py: each record of the
 * OurAirports CSV is normalised into a compact airport entry, and records
 * without a usable identifier, without parseable coordinates, or describing
 * a closed airport are dropped. Downloading the CSV and writing the JSON file
 * are left to the caller; the records arrive as a sequence of column maps.
 */
module BuildAirports {
  import opened Wrappers
  import opened PyStr

  /** One CSV record, column name to text. A column the record lacks reads as empty, as `row.get(col) or ""` does. */
  type Record = map<string, string>

  function Field(rec: Record, column: string): (s: string)
    ensures column in rec ==> s == rec[column]
    ensures column !in rec ==> s == ""
  {
    if column in rec then rec[column] else ""
  }

  /** `safe_float`: Python's `float` on a string, None where it raises. The parser itself is a parameter. */
  type FloatParser = string -> Option<real>

  /** One entry of airports.min.json. */
  datatype Airport = Airport(
    icao: string,
    iata: Option<string>,
    name: string,
    city: string,
    country: string,
    lat: real,
    lon: real)

  /** The form every entry has: codes upper-cased, no text with outer whitespace, an identifier of 3 or more characters, no empty IATA code. */
  predicate Canonical(a: Airport) {
    && Stripped(a.icao) && Upper(a.icao) == a.icao && |a.icao| >= 3
    && (a.iata.Some? ==> a.iata.value != "" && Stripped(a.iata.value) && Upper(a.iata.value) == a.iata.value)
    && Stripped(a.name) && Stripped(a.city)
    && Stripped(a.country) && Upper(a.country) == a.country
  }

  /** A code stripped and upper-cased: a code with no outer whitespace and no lower-case letter, as long as the stripped text. */
  function Code(s: string): (r: string)
    ensures r == Upper(Strip(s))
    ensures Stripped(r) && Upper(r) == r && |r| == |Strip(s)|
  {
    UpperKeepsStripped(Strip(s));
    UpperIdempotent(Strip(s));
    Upper(Strip(s))
  }

  /** An optional code: stripped and upper-cased, with an empty code read as no code. */
  function OptionalCode(s: string): (r: Option<string>)
    ensures r.None? <==> Strip(s) == ""
    ensures r.Some? ==> r.value == Code(s) && r.value != "" && Stripped(r.value) && Upper(r.value) == r.value
  {
    var code := Code(s);
    if code == "" then None else Some(code)
  }

  /**
   * The body of the loop (lines 20-43): the entry for a record, or None where
   * the loop continues. A record is dropped exactly when its identifier has
   * fewer than 3 characters once stripped, a coordinate does not parse, or its
   * type reads "closed" in any ASCII case; every entry it makes is canonical.
   */
  function Normalise(parse: FloatParser, rec: Record): (r: Option<Airport>)
    ensures r.None? <==>
              || |Strip(Field(rec, "ident"))| < 3
              || parse(Strip(Field(rec, "latitude_deg"))).None?
              || parse(Strip(Field(rec, "longitude_deg"))).None?
              || IsClosed(Field(rec, "type"))
    ensures r.Some? ==> Canonical(r.value)
  {
    var ident := Code(Field(rec, "ident"));
    if |ident| < 3 then None
    else
      var lat := parse(Strip(Field(rec, "latitude_deg")));
      var lon := parse(Strip(Field(rec, "longitude_deg")));
      if lat.None? || lon.None? then None
      else if IsClosed(Field(rec, "type")) then None
      else
        Some(Airport(
          ident,
          OptionalCode(Field(rec, "iata_code")),
          Strip(Field(rec, "name")),
          Strip(Field(rec, "municipality")),
          Code(Field(rec, "iso_country")),
          lat.value,
          lon.value))
  }

  /** The type column, stripped and lower-cased, reads "closed". */
  predicate IsClosed(t: string) {
    Lower(Strip(t)) == "closed"
  }

  /** The check ignores ASCII case. */
  lemma ClosedInAnyCase()
    ensures IsClosed("closed") && IsClosed("CLOSED") && IsClosed("Closed")
  {
    LowerClosed();
    ClosedWhenLowerIs("closed");
    ClosedWhenLowerIs("CLOSED");
    ClosedWhenLowerIs("Closed");
  }

  lemma ClosedWhenLowerIs(t: string)
    requires Stripped(t) && Lower(t) == "closed"
    ensures IsClosed(t)
  {
    StrippedIsFixed(t);
  }

  /** An empty type and a longer type that starts with "closed" are not closed. */
  lemma OnlyClosedIsClosed()
    ensures !IsClosed("") && !IsClosed("closed_heliport")
  {
    StrippedIsFixed("");
    StrippedIsFixed("closed_heliport");
  }

  lemma LowerClosed()
    ensures Lower("closed") == "closed" && Lower("CLOSED") == "closed" && Lower("Closed") == "closed"
  {
    var l, l', l'' := Lower("closed"), Lower("CLOSED"), Lower("Closed");
    assert l[0] == 'c' && l[1] == 'l' && l[2] == 'o' && l[3] == 's' && l[4] == 'e' && l[5] == 'd';
    assert l'[0] == 'c' && l'[1] == 'l' && l'[2] == 'o' && l'[3] == 's' && l'[4] == 'e' && l'[5] == 'd';
    assert l''[0] == 'c' && l''[1] == 'l' && l''[2] == 'o' && l''[3] == 's' && l''[4] == 'e' && l''[5] == 'd';
  }

  /** The record an entry would be read back from: its fields in their columns and its coordinates as text. */
  function Render(show: real -> string, a: Airport): Record {
    map[
      "ident" := a.icao,
      "iata_code" := (if a.iata.Some? then a.iata.value else ""),
      "name" := a.name,
      "municipality" := a.city,
      "iso_country" := a.country,
      "latitude_deg" := show(a.lat),
      "longitude_deg" := show(a.lon)]
  }

  /**
   * Normalising is idempotent: an entry in the form the builder produces,
   * written back as a record whose coordinates parse to themselves, comes out unchanged.
   */
  lemma NormaliseRendered(parse: FloatParser, show: real -> string, a: Airport)
    requires Canonical(a)
    requires Stripped(show(a.lat)) && parse(show(a.lat)) == Some(a.lat)
    requires Stripped(show(a.lon)) && parse(show(a.lon)) == Some(a.lon)
    ensures Normalise(parse, Render(show, a)) == Some(a)
  {
    RenderedChecks(parse, show, a);
    RenderedTexts(show, a);
    NormaliseFrom(parse, Render(show, a), a);
  }

  /** A record whose columns normalise to the fields of `a` and pass the checks normalises to `a`. */
  lemma NormaliseFrom(parse: FloatParser, rec: Record, a: Airport)
    requires Canonical(a)
    requires Code(Field(rec, "ident")) == a.icao
    requires parse(Strip(Field(rec, "latitude_deg"))) == Some(a.lat)
    requires parse(Strip(Field(rec, "longitude_deg"))) == Some(a.lon)
    requires !IsClosed(Field(rec, "type"))
    requires OptionalCode(Field(rec, "iata_code")) == a.iata
    requires Strip(Field(rec, "name")) == a.name
    requires Strip(Field(rec, "municipality")) == a.city
    requires Code(Field(rec, "iso_country")) == a.country
    ensures Normalise(parse, rec) == Some(a)
  {
  }

  /** The record rendered from a canonical entry passes the three checks with the entry's identifier and coordinates. */
  lemma RenderedChecks(parse: FloatParser, show: real -> string, a: Airport)
    requires Canonical(a)
    requires Stripped(show(a.lat)) && parse(show(a.lat)) == Some(a.lat)
    requires Stripped(show(a.lon)) && parse(show(a.lon)) == Some(a.lon)
    ensures var rec := Render(show, a);
            && Code(Field(rec, "ident")) == a.icao
            && parse(Strip(Field(rec, "latitude_deg"))) == Some(a.lat)
            && parse(Strip(Field(rec, "longitude_deg"))) == Some(a.lon)
            && !IsClosed(Field(rec, "type"))
  {
    RenderedFields(show, a);
    CodeOfCanonical(a.icao);
    StrippedIsFixed(show(a.lat));
    StrippedIsFixed(show(a.lon));
    StrippedIsFixed("");
  }

  /** The record rendered from a canonical entry gives back the entry's codes, name and city. */
  lemma RenderedTexts(show: real -> string, a: Airport)
    requires Canonical(a)
    ensures var rec := Render(show, a);
            && OptionalCode(Field(rec, "iata_code")) == a.iata
            && Strip(Field(rec, "name")) == a.name
            && Strip(Field(rec, "municipality")) == a.city
            && Code(Field(rec, "iso_country")) == a.country
  {
    RenderedFields(show, a);
    if a.iata.Some? {
      CodeOfCanonical(a.iata.value);
    } else {
      StrippedIsFixed("");
    }
    StrippedIsFixed(a.name);
    StrippedIsFixed(a.city);
    CodeOfCanonical(a.country);
  }

  lemma RenderedFields(show: real -> string, a: Airport)
    ensures var rec := Render(show, a);
            && Field(rec, "ident") == a.icao
            && Field(rec, "iata_code") == (if a.iata.Some? then a.iata.value else "")
            && Field(rec, "name") == a.name
            && Field(rec, "municipality") == a.city
            && Field(rec, "iso_country") == a.country
            && Field(rec, "latitude_deg") == show(a.lat)
            && Field(rec, "longitude_deg") == show(a.lon)
            && Field(rec, "type") == ""
  {
  }

  lemma CodeOfCanonical(s: string)
    requires Stripped(s) && Upper(s) == s
    ensures Code(s) == s
  {
    StrippedIsFixed(s);
  }

  /** What a loop that appends every entry `step` returns builds, in record order. */
  function Kept(step: Record -> Option<Airport>, recs: seq<Record>): (out: seq<Airport>)
    ensures |out| <= |recs|
  {
    if recs == [] then []
    else
      var out := Kept(step, recs[..|recs| - 1]);
      match step(recs[|recs| - 1])
      case Some(a) => out + [a]
      case None => out
  }

  /** The entries the loop appends, in record order. */
  function Normalised(parse: FloatParser, recs: seq<Record>): seq<Airport> {
    Kept(rec => Normalise(parse, rec), recs)
  }

  /** The loop over the CSV records (lines 17-43). */
  method BuildAirportList(parse: FloatParser, recs: seq<Record>) returns (out: seq<Airport>)
    ensures out == Normalised(parse, recs)
  {
    out := [];
    var i := 0;
    while i < |recs|
      invariant 0 <= i <= |recs|
      invariant out == Normalised(parse, recs[..i])
    {
      assert recs[..i + 1][..i] == recs[..i];
      var entry := Normalise(parse, recs[i]);
      if entry.Some? {
        out := out + [entry.value];
      }
      i := i + 1;
    }
    assert recs[..|recs|] == recs;
  }

  /** Every entry of the list is canonical. */
  lemma NormalisedCanonical(parse: FloatParser, recs: seq<Record>)
    ensures forall a :: a in Normalised(parse, recs) ==> Canonical(a)
  {
    KeptExactly(rec => Normalise(parse, rec), recs);
    forall a | a in Normalised(parse, recs)
      ensures Canonical(a)
    {
      var k :| 0 <= k < |recs| && Normalise(parse, recs[k]) == Some(a);
    }
  }

  /** Records are handled one by one: the list for two batches is the two lists joined. */
  lemma NormalisedAppend(parse: FloatParser, recs: seq<Record>, more: seq<Record>)
    ensures Normalised(parse, recs + more) == Normalised(parse, recs) + Normalised(parse, more)
  {
    KeptAppend(rec => Normalise(parse, rec), recs, more);
  }

  lemma {:induction false} KeptAppend(step: Record -> Option<Airport>, recs: seq<Record>, more: seq<Record>)
    ensures Kept(step, recs + more) == Kept(step, recs) + Kept(step, more)
    decreases |more|
  {
    if more == [] {
      assert recs + more == recs;
    } else {
      var init := more[..|more| - 1];
      assert (recs + more)[..|recs + more| - 1] == recs + init;
      assert (recs + more)[|recs + more| - 1] == more[|more| - 1];
      KeptAppend(step, recs, init);
    }
  }

  /** The entries are exactly those of the records that are kept: a record that is dropped leaves no trace. */
  lemma NormalisedExactly(parse: FloatParser, recs: seq<Record>)
    ensures forall a :: a in Normalised(parse, recs) <==> exists k :: 0 <= k < |recs| && Normalise(parse, recs[k]) == Some(a)
  {
    KeptExactly(rec => Normalise(parse, rec), recs);
  }

  lemma {:induction false} KeptExactly(step: Record -> Option<Airport>, recs: seq<Record>)
    ensures forall a :: a in Kept(step, recs) <==> exists k :: 0 <= k < |recs| && step(recs[k]) == Some(a)
  {
    if recs != [] {
      var init := recs[..|recs| - 1];
      KeptExactly(step, init);
      forall a
        ensures a in Kept(step, recs) <==> exists k :: 0 <= k < |recs| && step(recs[k]) == Some(a)
      {
        if exists k :: 0 <= k < |recs| && step(recs[k]) == Some(a) {
          var k :| 0 <= k < |recs| && step(recs[k]) == Some(a);
          if k < |recs| - 1 {
            assert init[k] == recs[k];
          }
        }
        if a in Kept(step, init) {
          var k :| 0 <= k < |init| && step(init[k]) == Some(a);
          assert recs[k] == init[k];
        }
      }
    }
  }
}
