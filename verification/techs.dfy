/**
 * Technology lists: the comma-separated text typed into the register and
 * profile forms, and the case-insensitive tag match used by the search
 * route and the search page.
 */
module Techs {
  import opened Text
  import opened Seqs

  /** `tech.length > 0` */
  predicate NonEmpty(tech: string) {
    tech != ""
  }

  /** A technology as `processTechs` produces it: non-empty, trimmed and comma-free. */
  predicate WellFormedTech(tech: string) {
    tech != "" && IsTrimmed(tech) && ',' !in tech
  }

  /** Every technology of the list is well formed. */
  predicate WellFormedTechs(ts: seq<string>) {
    forall i :: 0 <= i < |ts| ==> WellFormedTech(ts[i])
  }

  /**
   * `techs.split(",").map((tech) => tech.trim())`: one trimmed, comma-free
   * piece per comma-separated field, empty pieces kept.
   */
  function SplitTrimmed(techs: string): (r: seq<string>)
    ensures forall i :: 0 <= i < |r| ==> IsTrimmed(r[i]) && ',' !in r[i]
  {
    var pieces := Split(techs, ',');
    var r := Map(pieces, Trim);
    assert forall i :: 0 <= i < |r| ==> ',' !in r[i] by {
      forall i, j | 0 <= i < |r| && 0 <= j < |r[i]| ensures r[i][j] != ',' {
        TrimAddsNothing(pieces[i], ',');
      }
    }
    r
  }

  /**
   * `processTechs` of the register and profile pages: split on commas, trim,
   * drop empty pieces. Every resulting tech is non-empty, trimmed and comma-free.
   */
  function ProcessTechs(techs: string): (r: seq<string>)
    ensures WellFormedTechs(r)
  {
    Filter(SplitTrimmed(techs), NonEmpty)
  }

  /** What `processTechs` makes of one comma-free field. */
  function FieldTechs(field: string): seq<string> {
    if Trim(field) == "" then [] else [Trim(field)]
  }

  /** A comma-free text is one field. */
  lemma ProcessTechsOneField(field: string)
    requires ',' !in field
    ensures ProcessTechs(field) == FieldTechs(field)
  {
    SplitNoSeparator(field, ',');
    assert SplitTrimmed(field) == [Trim(field)];
  }

  /** The comma split of a comma-free field followed by a comma starts with that field. */
  lemma SplitTrimmedFirstField(field: string, rest: string)
    requires ',' !in field
    ensures SplitTrimmed(field + [','] + rest) == [Trim(field)] + SplitTrimmed(rest)
  {
    SplitAfterPiece(field, ',', rest);
    MapAppend([field], Split(rest, ','), Trim);
  }

  /** A comma-free field followed by a comma contributes its techs in front of the rest. */
  lemma ProcessTechsFirstField(field: string, rest: string)
    requires ',' !in field
    ensures ProcessTechs(field + [','] + rest) == FieldTechs(field) + ProcessTechs(rest)
  {
    SplitTrimmedFirstField(field, rest);
    FilterCons(Trim(field), SplitTrimmed(rest), NonEmpty);
  }

  /** The text in front of the first ", " of a joined list is its first tech. */
  lemma JoinFirstField(w: string, ts: seq<string>)
    requires |ts| >= 2
    ensures w + Join(ts, ", ") == (w + ts[0]) + [','] + (" " + Join(ts[1..], ", "))
  {
  }

  /** Blanks alone hold no technology. */
  lemma ProcessTechsBlank(w: string)
    requires AllWhitespace(w) && ',' !in w
    ensures ProcessTechs(w) == []
  {
    ProcessTechsOneField(w);
    TrimEmptyIff(w);
  }

  /** Blanks in front of one well-formed technology are trimmed away. */
  lemma ProcessTechsPaddedSingle(w: string, t: string)
    requires AllWhitespace(w) && ',' !in w
    requires WellFormedTech(t)
    ensures ProcessTechs(w + t) == [t]
  {
    ProcessTechsOneField(w + t);
    TrimLeadingWhitespace(w, t);
  }

  /** The first technology of a joined list, after some blanks, is parsed in front of the rest. */
  lemma ProcessTechsPaddedStep(w: string, ts: seq<string>)
    requires AllWhitespace(w) && ',' !in w && |ts| >= 2
    requires WellFormedTech(ts[0])
    ensures ProcessTechs(w + Join(ts, ", ")) == [ts[0]] + ProcessTechs(" " + Join(ts[1..], ", "))
  {
    JoinFirstField(w, ts);
    ProcessTechsFirstField(w + ts[0], " " + Join(ts[1..], ", "));
    TrimLeadingWhitespace(w, ts[0]);
  }

  /** A list of well-formed techs shown joined by ", " (optionally after some blanks) parses back to itself. */
  lemma {:induction false} ProcessTechsPadded(w: string, ts: seq<string>)
    requires AllWhitespace(w) && ',' !in w
    requires WellFormedTechs(ts)
    ensures ProcessTechs(w + Join(ts, ", ")) == ts
    decreases |ts|
  {
    if |ts| == 0 {
      assert w + Join(ts, ", ") == w;
      ProcessTechsBlank(w);
    } else if |ts| == 1 {
      assert w + Join(ts, ", ") == w + ts[0];
      assert WellFormedTech(ts[0]);
      ProcessTechsPaddedSingle(w, ts[0]);
    } else {
      assert WellFormedTech(ts[0]);
      ProcessTechsPaddedStep(w, ts);
      assert AllWhitespace(" ") by {
        assert IsWhitespace(" "[0]);
      }
      assert WellFormedTechs(ts[1..]) by {
        forall i | 0 <= i < |ts[1..]| ensures WellFormedTech(ts[1..][i]) {
          assert ts[1..][i] == ts[i + 1];
        }
      }
      ProcessTechsPadded(" ", ts[1..]);
      assert [ts[0]] + ts[1..] == ts;
    }
  }

  /** Every character of the text is a comma. */
  predicate OnlyCommas(techs: string) {
    forall i :: 0 <= i < |techs| ==> techs[i] == ','
  }

  /** A text made only of commas holds no technology, and is not blank unless it is empty. */
  lemma {:induction false} ProcessTechsOnlyCommas(techs: string)
    requires OnlyCommas(techs)
    ensures ProcessTechs(techs) == []
    ensures techs != [] ==> !AllWhitespace(techs)
    decreases |techs|
  {
    if techs == [] {
      ProcessTechsBlank(techs);
    } else {
      var rest := techs[1..];
      assert techs == [] + [','] + rest;
      assert !IsWhitespace(techs[0]);
      ProcessTechsFirstField([], rest);
      ProcessTechsBlank([]);
      assert FieldTechs([]) == [];
      ProcessTechsOnlyCommas(rest);
    }
  }

  /**
   * Round trip of the profile page: techs loaded from the profile and shown as
   * `techs.join(", ")` come back unchanged from `processTechs`, provided each
   * tech is non-empty, trimmed and free of commas.
   */
  lemma ProcessTechsJoin(ts: seq<string>)
    requires WellFormedTechs(ts)
    ensures ProcessTechs(Join(ts, ", ")) == ts
  {
    ProcessTechsPadded("", ts);
    assert "" + Join(ts, ", ") == Join(ts, ", ");
  }

  /** A technology is in `processTechs`'s result iff it is a non-empty piece of the trimmed comma split. */
  lemma ProcessTechsKeepsNonEmpty(techs: string, tech: string)
    requires tech in SplitTrimmed(techs) && tech != ""
    ensures tech in ProcessTechs(techs)
  {
    FilterKeeps(SplitTrimmed(techs), NonEmpty, tech);
  }

  /** `tag.toLowerCase().includes(query.toLowerCase())` */
  predicate TagMatches(tag: string, query: string) {
    Contains(ToLower(tag), ToLower(query))
  }

  /** `techs.some((t) => t.toLowerCase().includes(query.toLowerCase()))` */
  predicate AnyTagMatches(techs: seq<string>, query: string) {
    exists i :: 0 <= i < |techs| && TagMatches(techs[i], query)
  }

  /** The match ignores the case of the query. */
  lemma AnyTagMatchesIgnoresCase(techs: seq<string>, query: string)
    ensures AnyTagMatches(techs, query) <==> AnyTagMatches(techs, ToLower(query))
  {
    ToLowerIdempotent(query);
  }

  /** An empty query is contained in every tag: it matches any non-empty tag list. */
  lemma EmptyQueryMatchesAnyTag(techs: seq<string>)
    ensures AnyTagMatches(techs, "") <==> |techs| > 0
  {
    if |techs| > 0 {
      ContainsSelf(ToLower(techs[0]));
      assert ToLower("") == "";
      assert TagMatches(techs[0], "");
    }
  }

  /** A capitalised query finds a tag that only shares a prefix with it: "REACT" matches "React Native". */
  lemma UpperCaseQueryMatches()
    ensures TagMatches("React Native", "REACT")
  {
    assert ToLower("REACT") == "react";
    assert ToLower("React Native") == "react native";
    assert StartsWith("react native", "react");
  }
}
