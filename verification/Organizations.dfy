/** Taking the organization out of an environment's resource name. */
module Organizations {
  import opened Wrappers

  const ENVIRONMENT_MARK := "/environment="
  const ORGANIZATION_MARK := "/organization="

  datatype NameError = MarkMissing

  predicate OccursAt(s: string, mark: string, i: int) {
    0 <= i <= |s| - |mark| && s[i..i + |mark|] == mark
  }

  ghost predicate Occurs(s: string, mark: string) {
    exists i :: OccursAt(s, mark, i)
  }

  /** `strings.LastIndex`: the last occurrence at or before i, or -1. */
  function LastIndexFrom(s: string, mark: string, i: int): (r: int)
    requires -1 <= i
    ensures -1 <= r <= i
    ensures r >= 0 ==> OccursAt(s, mark, r)
    ensures forall j :: r < j <= i ==> !OccursAt(s, mark, j)
  {
    if i < 0 then -1 else if OccursAt(s, mark, i) then i else LastIndexFrom(s, mark, i - 1)
  }

  function LastIndex(s: string, mark: string): int {
    if |mark| > |s| then -1 else LastIndexFrom(s, mark, |s| - |mark|)
  }

  /** The resource name of the organization: what precedes the last environment mark. */
  function OrgResourceName(environmentResourceName: string): Result<string, NameError> {
    var i := LastIndex(environmentResourceName, ENVIRONMENT_MARK);
    if i == -1 then Err(MarkMissing) else Ok(environmentResourceName[..i])
  }

  lemma OccurrenceSkipsMark(r: string, mark: string, e: string, i: int)
    requires |mark| > 0 && mark[0] == '/' && (forall k :: 0 < k < |mark| ==> mark[k] != '/')
    requires i > |r|
    ensures OccursAt(r + mark + e, mark, i) <==> OccursAt(e, mark, i - |r| - |mark|)
  {
    var s := r + mark + e;
    var k := i - |r| - |mark|;
    if k >= 0 {
      if k + |mark| <= |e| {
        assert s[i..i + |mark|] == e[k..k + |mark|];
      }
    } else {
      assert s[i] == mark[i - |r|] != '/';
    }
  }

  /** Stripping undoes appending exactly when what was appended holds no environment mark itself. */
  lemma StripUndoesAppend(r: string, e: string)
    ensures OrgResourceName(r + ENVIRONMENT_MARK + e) == Ok(r) <==> !Occurs(e, ENVIRONMENT_MARK)
  {
    var s := r + ENVIRONMENT_MARK + e;
    assert s[|r|..|r| + |ENVIRONMENT_MARK|] == ENVIRONMENT_MARK;
    assert OccursAt(s, ENVIRONMENT_MARK, |r|);
    var i := LastIndex(s, ENVIRONMENT_MARK);
    assert s[..|r|] == r;
    if Occurs(e, ENVIRONMENT_MARK) {
      var k :| OccursAt(e, ENVIRONMENT_MARK, k);
      OccurrenceSkipsMark(r, ENVIRONMENT_MARK, e, k + |r| + |ENVIRONMENT_MARK|);
      assert i > |r|;
    } else if i > |r| {
      OccurrenceSkipsMark(r, ENVIRONMENT_MARK, e, i);
    }
  }

  /** In particular for every environment id without a slash. */
  lemma SlashFreeIdsStrip(r: string, e: string)
    requires '/' !in e
    ensures OrgResourceName(r + ENVIRONMENT_MARK + e) == Ok(r)
  {
    StripUndoesAppend(r, e);
    assert ENVIRONMENT_MARK[0] == '/';
    forall k | 0 <= k <= |e| - |ENVIRONMENT_MARK| ensures !OccursAt(e, ENVIRONMENT_MARK, k)
    {
      assert e[k..k + |ENVIRONMENT_MARK|][0] == e[k] != '/';
    }
  }

  // ---- The organization's id ----

  /** Up to the next slash or the end. */
  function Segment(s: string): (t: string)
    ensures '/' !in t && t <= s
  {
    if s == "" || s[0] == '/' then "" else [s[0]] + Segment(s[1..])
  }

  /** The first non-empty segment after an organization mark: the regular expression
      `/organization=([^/]+)(/|$)`, from position i on. */
  function OrgIdFrom(s: string, i: nat): Result<string, NameError>
    requires i <= |s|
    decreases |s| - i
  {
    if OccursAt(s, ORGANIZATION_MARK, i) && Segment(s[i + |ORGANIZATION_MARK|..]) != "" then
      Ok(Segment(s[i + |ORGANIZATION_MARK|..]))
    else if i == |s| then Err(MarkMissing)
    else OrgIdFrom(s, i + 1)
  }

  lemma {:induction false} SegmentWhole(t: string)
    requires '/' !in t
    ensures Segment(t) == t
  {
    if t != "" { SegmentWhole(t[1..]); }
  }

  lemma {:induction false} OrgIdSkips(s: string, i: nat, j: nat)
    requires i <= j <= |s| && forall k :: i <= k < j ==> !OccursAt(s, ORGANIZATION_MARK, k)
    ensures OrgIdFrom(s, i) == OrgIdFrom(s, j)
    decreases j - i
  {
    if i < j { OrgIdSkips(s, i + 1, j); }
  }

  /** From `<prefix>/organization=<o>/environment=<e>`, as the service names environments, the
      organization's resource name and its id are both recovered. */
  lemma OrganizationOfEnvironment(prefix: string, o: string, e: string)
    requires '/' !in o && o != "" && '/' !in e && !Occurs(prefix, ORGANIZATION_MARK)
    ensures var r := prefix + "/organization=" + o;
            OrgResourceName(r + "/environment=" + e) == Ok(r) && OrgIdFrom(r, 0) == Ok(o)
  {
    var r := prefix + ORGANIZATION_MARK + o;
    SlashFreeIdsStrip(r, e);
    forall k | 0 <= k < |prefix| ensures !OccursAt(r, ORGANIZATION_MARK, k)
    {
      var m := ORGANIZATION_MARK;
      if k + |m| <= |prefix| {
        assert prefix[k..k + |m|] == r[k..k + |m|];
        assert !OccursAt(prefix, m, k);
      } else if k + |m| <= |r| {
        assert r[k..k + |m|][|prefix| - k] == r[|prefix|] == '/';
        assert m[|prefix| - k] != '/';
      }
    }
    OrgIdSkips(r, 0, |prefix|);
    assert r[|prefix|..|prefix| + |ORGANIZATION_MARK|] == ORGANIZATION_MARK;
    assert r[|prefix| + |ORGANIZATION_MARK|..] == o;
    SegmentWhole(o);
  }
}
