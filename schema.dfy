/** Column-role inference by name (app.py `detect_irrigation_column` and the
    region, `tavg` and `prcp` comprehensions of `page_dashboard`): a column
    plays a role when its lower-cased name contains one of the role's words,
    and a role with a single column takes the first such column in declared
    order. */
module Schema {
  import opened Wrappers
  import opened Sequences

  /** `str.lower` on ASCII letters. */
  function LowerChar(ch: char): char
  {
    if 'A' <= ch <= 'Z' then (ch as int - 'A' as int + 'a' as int) as char else ch
  }

  function Lower(s: string): string
  {
    seq(|s|, i requires 0 <= i < |s| => LowerChar(s[i]))
  }

  /** A name without capital letters is its own lower-cased form. */
  lemma LowerKeepsLowerCase(s: string)
    requires forall i :: 0 <= i < |s| ==> !('A' <= s[i] <= 'Z')
    ensures Lower(s) == s
  {
  }

  predicate StartsWith(s: string, pat: string)
  {
    |pat| <= |s| && s[..|pat|] == pat
  }

  /** Python's `pat in s`, as a scan from the left. */
  predicate Contains(s: string, pat: string)
    decreases |s|
  {
    StartsWith(s, pat) || (|s| > 0 && Contains(s[1..], pat))
  }

  /** `pat` occurs in `s` starting at index `i`. */
  predicate OccursAt(s: string, pat: string, i: int)
  {
    0 <= i && i + |pat| <= |s| && s[i..i + |pat|] == pat
  }

  lemma {:induction false} ContainsHasOccurrence(s: string, pat: string)
    requires Contains(s, pat)
    ensures exists i :: OccursAt(s, pat, i)
  {
    if StartsWith(s, pat) {
      assert OccursAt(s, pat, 0);
    } else {
      ContainsHasOccurrence(s[1..], pat);
      var i :| OccursAt(s[1..], pat, i);
      assert s[1..][i..i + |pat|] == s[i + 1..i + 1 + |pat|];
      assert OccursAt(s, pat, i + 1);
    }
  }

  lemma {:induction false} OccurrenceIsContained(s: string, pat: string, i: int)
    requires OccursAt(s, pat, i)
    ensures Contains(s, pat)
    decreases i
  {
    if i > 0 {
      assert s[1..][i - 1..i - 1 + |pat|] == s[i..i + |pat|];
      OccurrenceIsContained(s[1..], pat, i - 1);
    }
  }

  /** The scan agrees with the positional definition of substring membership. */
  lemma ContainsIffOccurs(s: string, pat: string)
    ensures Contains(s, pat) <==> exists i :: OccursAt(s, pat, i)
  {
    if Contains(s, pat) {
      ContainsHasOccurrence(s, pat);
    }
    if exists i :: OccursAt(s, pat, i) {
      var i :| OccursAt(s, pat, i);
      OccurrenceIsContained(s, pat, i);
    }
  }

  /** A name in which the first two letters of `pat` never stand side by
      side does not contain `pat`. */
  lemma {:induction false} NoLeadingPairNoMatch(s: string, pat: string)
    requires |pat| >= 2
    requires forall i :: 0 <= i < |s| - 1 ==> s[i] != pat[0] || s[i + 1] != pat[1]
    ensures !Contains(s, pat)
    decreases |s|
  {
    if |pat| <= |s| {
      assert s[..|pat|][0] == s[0] && s[..|pat|][1] == s[1];
    }
    if |s| > 0 {
      NoLeadingPairNoMatch(s[1..], pat);
    }
  }

  predicate NamesAdvice(c: string)
  {
    Contains(Lower(c), "irrig") || Contains(Lower(c), "water")
  }

  predicate NamesRegion(c: string)
  {
    Contains(Lower(c), "region") || Contains(Lower(c), "location")
  }

  predicate NamesTemperature(c: string)
  {
    Contains(Lower(c), "tavg")
  }

  predicate NamesPrecipitation(c: string)
  {
    Contains(Lower(c), "prcp")
  }

  /** `candidates[0] if candidates else None` over the columns playing `role`. */
  function FirstMatch(columns: seq<string>, role: string -> bool): Option<string>
  {
    var candidates := Where(columns, role);
    if |candidates| > 0 then Some(candidates[0]) else None
  }

  function DetectIrrigationColumn(columns: seq<string>): Option<string>
  {
    FirstMatch(columns, NamesAdvice)
  }

  function DetectRegionColumn(columns: seq<string>): Option<string>
  {
    FirstMatch(columns, NamesRegion)
  }

  /** Every `tavg` column, in declared order (the chart keeps all of them). */
  function TemperatureColumns(columns: seq<string>): seq<string>
  {
    Where(columns, NamesTemperature)
  }

  function PrecipitationColumns(columns: seq<string>): seq<string>
  {
    Where(columns, NamesPrecipitation)
  }

  /** The column chosen is the first one in declared order that plays the
      role, and nothing is chosen exactly when no column plays it. */
  lemma {:induction false} FirstMatchIsFirst(columns: seq<string>, role: string -> bool)
    ensures FirstMatch(columns, role).None? <==> forall i :: 0 <= i < |columns| ==> !role(columns[i])
    ensures FirstMatch(columns, role).Some? ==>
      exists i :: 0 <= i < |columns| && columns[i] == FirstMatch(columns, role).value && role(columns[i])
        && forall j :: 0 <= j < i ==> !role(columns[j])
  {
    if columns != [] && !role(columns[0]) {
      var rest := columns[1..];
      FirstMatchIsFirst(rest, role);
      assert FirstMatch(columns, role) == FirstMatch(rest, role);
      assert forall i :: 0 < i < |columns| ==> columns[i] == rest[i - 1];
      if FirstMatch(rest, role).Some? {
        var i :| 0 <= i < |rest| && rest[i] == FirstMatch(rest, role).value && role(rest[i])
          && forall j :: 0 <= j < i ==> !role(rest[j]);
        assert columns[i + 1] == rest[i];
        assert forall j :: 0 < j < i + 1 ==> !role(columns[j]) by {
          forall j | 0 < j < i + 1 ensures !role(columns[j]) {
            assert columns[j] == rest[j - 1];
          }
        }
      }
    } else if columns != [] {
      assert columns[0] == FirstMatch(columns, role).value;
    }
  }

  /** The advice column: the first column whose lower-cased name contains
      "irrig" or "water", or none when no column does. */
  lemma DetectIrrigationColumnIsFirst(columns: seq<string>)
    ensures DetectIrrigationColumn(columns).None? <==> forall i :: 0 <= i < |columns| ==> !NamesAdvice(columns[i])
    ensures DetectIrrigationColumn(columns).Some? ==>
      exists i :: 0 <= i < |columns| && columns[i] == DetectIrrigationColumn(columns).value
        && (Contains(Lower(columns[i]), "irrig") || Contains(Lower(columns[i]), "water"))
        && forall j :: 0 <= j < i ==> !NamesAdvice(columns[j])
  {
    FirstMatchIsFirst(columns, NamesAdvice);
  }

  /** The region column: the first column whose lower-cased name contains
      "region" or "location", or none when no column does. */
  lemma DetectRegionColumnIsFirst(columns: seq<string>)
    ensures DetectRegionColumn(columns).None? <==> forall i :: 0 <= i < |columns| ==> !NamesRegion(columns[i])
    ensures DetectRegionColumn(columns).Some? ==>
      exists i :: 0 <= i < |columns| && columns[i] == DetectRegionColumn(columns).value
        && (Contains(Lower(columns[i]), "region") || Contains(Lower(columns[i]), "location"))
        && forall j :: 0 <= j < i ==> !NamesRegion(columns[j])
  {
    FirstMatchIsFirst(columns, NamesRegion);
  }

  /** The `tavg` columns are exactly the matching columns, in declared order. */
  lemma TemperatureColumnsExact(columns: seq<string>)
    ensures IsSubsequence(TemperatureColumns(columns), columns)
    ensures forall c :: c in TemperatureColumns(columns) <==> c in columns && Contains(Lower(c), "tavg")
  {
    WhereIsSubsequence(columns, NamesTemperature);
  }

  /** The `prcp` columns are exactly the matching columns, in declared order. */
  lemma PrecipitationColumnsExact(columns: seq<string>)
    ensures IsSubsequence(PrecipitationColumns(columns), columns)
    ensures forall c :: c in PrecipitationColumns(columns) <==> c in columns && Contains(Lower(c), "prcp")
  {
    WhereIsSubsequence(columns, NamesPrecipitation);
  }

  /** Inferring again over the candidates already found changes nothing:
      the same column is chosen and the same list is kept. */
  lemma InferenceIsStable(columns: seq<string>, role: string -> bool)
    ensures FirstMatch(Where(columns, role), role) == FirstMatch(columns, role)
    ensures Where(Where(columns, role), role) == Where(columns, role)
  {
    WhereIdempotent(columns, role);
  }
}
