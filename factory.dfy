/** The readiness check of a product brief: nine fields must be present. */
module Factory {
  import opened Wrappers
  import opened JsonValues

  const REQUIRED_FIELDS: seq<string> := [
    "productName", "targetSegment", "durationDays", "budgetPerPax", "heroDestination",
    "valueProps", "itineraryOutline", "suppliers", "pricingAssumptions"]

  const BRIEF_MISSING := "Brief is missing"

  /** Undefined, null, the empty string and the empty array are missing; `0`, `false` and blanks are not. */
  predicate IsMissing(brief: Object, field: string) {
    field !in brief || brief[field] == JNull || brief[field] == JStr("") || brief[field] == JArr([])
  }

  function RequiredIssue(field: string): string {
    field + " is required"
  }

  /** The required fields that are missing, in the order they are required. */
  function MissingFields(brief: Object, fields: seq<string>): seq<string>
    decreases |fields|
  {
    if fields == [] then []
    else
      var last := fields[|fields| - 1];
      MissingFields(brief, fields[..|fields| - 1]) + if IsMissing(brief, last) then [last] else []
  }

  /** Exactly the missing ones among the fields, and never more of them than there are fields. */
  lemma {:induction false} MissingFieldsExactly(brief: Object, fields: seq<string>)
    ensures |MissingFields(brief, fields)| <= |fields|
    ensures forall f :: f in MissingFields(brief, fields) <==> f in fields && IsMissing(brief, f)
    decreases |fields|
  {
    if fields != [] {
      var prefix := fields[..|fields| - 1];
      MissingFieldsExactly(brief, prefix);
      assert forall f :: f in fields <==> f in prefix || f == fields[|fields| - 1];
    }
  }

  function Issues(fields: seq<string>): (r: seq<string>)
    ensures |r| == |fields| && forall i :: 0 <= i < |fields| ==> r[i] == RequiredIssue(fields[i])
  {
    seq(|fields|, i requires 0 <= i < |fields| => RequiredIssue(fields[i]))
  }

  lemma MissingFieldsSnoc(brief: Object, fields: seq<string>, i: nat)
    requires i < |fields|
    ensures MissingFields(brief, fields[..i + 1])
         == MissingFields(brief, fields[..i]) + if IsMissing(brief, fields[i]) then [fields[i]] else []
  {
    assert fields[..i + 1][..i] == fields[..i];
  }

  lemma IssuesConcat(a: seq<string>, b: seq<string>)
    ensures Issues(a + b) == Issues(a) + Issues(b)
  {
  }

  datatype BriefReadiness = BriefReadiness(ready: bool, issues: seq<string>)

  /** `checkBriefReadiness`; `None` is a null or undefined brief. */
  method CheckBriefReadiness(brief: Option<Object>) returns (r: BriefReadiness)
    ensures brief.None? ==> r == BriefReadiness(false, [BRIEF_MISSING])
    ensures brief.Some? ==> r.issues == Issues(MissingFields(brief.value, REQUIRED_FIELDS))
    ensures r.ready <==> r.issues == []
    ensures |r.issues| <= |REQUIRED_FIELDS|
  {
    if brief.None? {
      return BriefReadiness(false, [BRIEF_MISSING]);
    }
    var b := brief.value;
    var issues: seq<string> := [];
    var i := 0;
    while i < |REQUIRED_FIELDS|
      invariant 0 <= i <= |REQUIRED_FIELDS|
      invariant issues == Issues(MissingFields(b, REQUIRED_FIELDS[..i]))
    {
      var field := REQUIRED_FIELDS[i];
      var isEmptyArray := field in b && b[field].JArr? && |b[field].items| == 0;
      MissingFieldsSnoc(b, REQUIRED_FIELDS, i);
      IssuesConcat(MissingFields(b, REQUIRED_FIELDS[..i]), if IsMissing(b, field) then [field] else []);
      if field !in b || b[field] == JNull || b[field] == JStr("") || isEmptyArray {
        issues := issues + [RequiredIssue(field)];
      }
      i := i + 1;
    }
    assert REQUIRED_FIELDS[..i] == REQUIRED_FIELDS;
    MissingFieldsExactly(b, REQUIRED_FIELDS);
    r := BriefReadiness(|issues| == 0, issues);
  }

  /** A brief is ready exactly when none of the nine fields is missing. */
  lemma ReadyIffNothingMissing(brief: Object)
    ensures Issues(MissingFields(brief, REQUIRED_FIELDS)) == [] <==> forall f :: f in REQUIRED_FIELDS ==> !IsMissing(brief, f)
  {
    var missing := MissingFields(brief, REQUIRED_FIELDS);
    MissingFieldsExactly(brief, REQUIRED_FIELDS);
    if missing != [] {
      assert missing[0] in missing;
    }
  }

  /** Only the nine fields are read: briefs that agree on them get the same issues. */
  lemma {:induction false} OnlyRequiredFieldsMatter(a: Object, b: Object, fields: seq<string>)
    requires forall f :: f in fields ==> (f in a <==> f in b) && (f in a ==> a[f] == b[f])
    ensures MissingFields(a, fields) == MissingFields(b, fields)
    decreases |fields|
  {
    if fields != [] {
      var prefix := fields[..|fields| - 1];
      assert forall f :: f in prefix ==> f in fields;
      OnlyRequiredFieldsMatter(a, b, prefix);
      assert fields[|fields| - 1] in fields;
    }
  }

  /** An empty brief lacks every field, in order: it gets all nine issues. */
  lemma {:induction false} EmptyBriefLacksEverything(fields: seq<string>)
    ensures MissingFields(map[], fields) == fields
    decreases |fields|
  {
    if fields != [] {
      EmptyBriefLacksEverything(fields[..|fields| - 1]);
      assert fields == fields[..|fields| - 1] + [fields[|fields| - 1]];
    }
  }
}
