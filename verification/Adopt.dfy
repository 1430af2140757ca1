/** Which array volume a Docker name means: the name tags of internal/flasharray/client.go, Create,
    Adopt and Remove of internal/driver/driver.go as far as tags go, and the plan loop of
    cmd/docker-volume-flasharray/adopt.go, dry run and real run. */
module Adoption {
  import opened Types

  /** An array volume: destroyed ones keep their tag. */
  datatype Vol = Vol(live: bool, tag: Option<string>)

  type Store = map<string, Vol>

  predicate Tagged(s: Store, an: string, value: string) {
    an in s && s[an].live && s[an].tag == Some(value)
  }

  /** No two live volumes carry the same tag, among the tags with this prefix. */
  ghost predicate Injective(s: Store, prefix: string) {
    forall a, b, value | prefix <= value && Tagged(s, a, value) && Tagged(s, b, value) :: a == b
  }

  /** Client.ListNameTags. */
  function ListTags(s: Store, prefix: string): map<string, string> {
    map an | an in s && s[an].live && s[an].tag.Some? && prefix <= s[an].tag.value :: s[an].tag.value
  }

  datatype Found = Nobody | One(an: string) | Many

  function Carriers(s: Store, value: string): set<string> {
    set an | an in s && Tagged(s, an, value)
  }

  /** Client.LookupNameTag. */
  function Lookup(s: Store, value: string): Found {
    var c := Carriers(s, value);
    if c == {} then Nobody else if |c| == 1 then One(Only(c)) else Many
  }

  function Only(c: set<string>): (an: string)
    requires |c| == 1
    ensures c == {an}
  {
    Singleton(c);
    var an :| an in c;
    an
  }

  lemma Singleton(c: set<string>)
    requires |c| == 1
    ensures exists an :: c == {an}
    ensures forall a, b | a in c && b in c :: a == b
  {
    var an :| an in c;
    assert |c - {an}| == 0;
    assert c == {an};
  }

  /** Why Adopt may refuse; Kept and Tagged are successes. */
  datatype Adopted = NoName | NoVolume | NameTaken | VolumeTaken | AlreadySo | NowTagged

  predicate Succeeds(r: Adopted) {
    r == AlreadySo || r == NowTagged
  }

  function Value(ns: string, dn: string): string {
    ns + "/" + dn
  }

  function AdoptResult(s: Store, ns: string, dn: string, an: string): Adopted {
    var value := Value(ns, dn);
    if dn == "" || an == "" then NoName
    else if an !in s || !s[an].live then NoVolume
    else if Lookup(s, value) != Nobody && Lookup(s, value) != One(an) then NameTaken
    else
      var tags := ListTags(s, ns + "/");
      if an !in tags then NowTagged else if tags[an] == value then AlreadySo else VolumeTaken
  }

  function AfterAdopt(s: Store, ns: string, dn: string, an: string): Store {
    if AdoptResult(s, ns, dn, an) == NowTagged then s[an := s[an].(tag := Some(Value(ns, dn)))] else s
  }

  lemma LookupSays(s: Store, value: string, an: string)
    ensures Lookup(s, value) == Nobody <==> forall a :: !Tagged(s, a, value)
    ensures Lookup(s, value) == One(an) <==> Tagged(s, an, value) && forall a | Tagged(s, a, value) :: a == an
  {
    var c := Carriers(s, value);
    assert forall a :: a in c <==> Tagged(s, a, value);
    if |c| == 1 {
      assert c == {Only(c)};
    }
    if Tagged(s, an, value) && forall a | Tagged(s, a, value) :: a == an {
      assert c == {an};
    }
  }

  /** When Adopt succeeds: nobody else carries the tag and the volume carries no other of this namespace. */
  lemma AdoptSucceedsIff(s: Store, ns: string, dn: string, an: string)
    ensures Succeeds(AdoptResult(s, ns, dn, an)) <==>
            && dn != "" && an != "" && an in s && s[an].live
            && (forall a | Tagged(s, a, Value(ns, dn)) :: a == an)
            && (forall v | Tagged(s, an, v) && ns + "/" <= v :: v == Value(ns, dn))
  {
    LookupSays(s, Value(ns, dn), an);
    var tags := ListTags(s, ns + "/");
    assert an in tags ==> Tagged(s, an, tags[an]);
  }

  /** Success leaves the volume tagged, the namespace's tags as they were plus this one, tags of
      other volumes alone, and at most one volume to a tag, in any namespace. */
  lemma AdoptKeepsTags(s: Store, ns: string, dn: string, an: string, prefix: string)
    requires Injective(s, prefix)
    ensures var t := AfterAdopt(s, ns, dn, an);
            && Injective(t, prefix)
            && (Succeeds(AdoptResult(s, ns, dn, an)) ==> Tagged(t, an, Value(ns, dn)))
            && Submap(ListTags(s, ns + "/"), ListTags(t, ns + "/"))
            && (forall a | a in s && a != an :: a in t && t[a] == s[a])
  {
    LookupSays(s, Value(ns, dn), an);
    var t := AfterAdopt(s, ns, dn, an);
    forall a, b, value | prefix <= value && Tagged(t, a, value) && Tagged(t, b, value) ensures a == b {
      assert a != an ==> Tagged(s, a, value);
      assert b != an ==> Tagged(s, b, value);
    }
  }

  // The plan ---------------------------------------------------------------------------------

  datatype Line = Line(an: string, dn: string)

  datatype Verdict = Skip | TaggedOther | ClaimedOther | Would | Done | Failed

  /** What both runs decide first, from the tags at the start and what earlier lines claimed. */
  function Triage(already: map<string, string>, claimed: map<string, string>, ns: string, l: Line): Verdict {
    var want := Value(ns, l.dn);
    if l.an in already && already[l.an] == want then Skip
    else if l.an in already && already[l.an] != "" then TaggedOther
    else if want in claimed && claimed[want] != "" && claimed[want] != l.an then ClaimedOther
    else Would
  }

  /** claimed after these lines. */
  function Claims(already: map<string, string>, claimed: map<string, string>, ns: string, plan: seq<Line>): map<string, string> {
    if plan == [] then claimed
    else
      var before, l := Claims(already, claimed, ns, plan[..|plan| - 1]), plan[|plan| - 1];
      if Triage(already, before, ns, l) == Would then before[Value(ns, l.dn) := l.an] else before
  }

  function DryVerdict(already: map<string, string>, claimed: map<string, string>, ns: string, plan: seq<Line>, i: nat): Verdict
    requires i < |plan|
  {
    Triage(already, Claims(already, claimed, ns, plan[..i]), ns, plan[i])
  }

  /** The array after a real run of these lines. */
  function Applied(s: Store, claimed: map<string, string>, ns: string, plan: seq<Line>): Store {
    if plan == [] then s
    else
      var already, front, l := ListTags(s, ns + "/"), plan[..|plan| - 1], plan[|plan| - 1];
      var before := Applied(s, claimed, ns, front);
      if Triage(already, Claims(already, claimed, ns, front), ns, l) == Would then AfterAdopt(before, ns, l.dn, l.an) else before
  }

  function RealVerdict(s: Store, claimed: map<string, string>, ns: string, plan: seq<Line>, i: nat): Verdict
    requires i < |plan|
  {
    var v := DryVerdict(ListTags(s, ns + "/"), claimed, ns, plan, i);
    if v != Would then v
    else if Succeeds(AdoptResult(Applied(s, claimed, ns, plan[..i]), ns, plan[i].dn, plan[i].an)) then Done
    else Failed
  }

  function VerdictOf(s: Store, claimed: map<string, string>, ns: string, plan: seq<Line>, dryRun: bool, i: nat): Verdict
    requires i < |plan|
  {
    if dryRun then DryVerdict(ListTags(s, ns + "/"), claimed, ns, plan, i) else RealVerdict(s, claimed, ns, plan, i)
  }

  /** claimed as the loop starts: for each tag a volume that carries it, whichever came last. */
  ghost predicate Inverse(already: map<string, string>, claimed: map<string, string>) {
    && (forall an | an in already :: already[an] in claimed)
    && (forall value | value in claimed :: claimed[value] in already && already[claimed[value]] == value)
  }

  predicate Fails(v: Verdict) {
    v == TaggedOther || v == ClaimedOther || v == Failed
  }

  function Failures(verdicts: seq<Verdict>): nat {
    if verdicts == [] then 0
    else Failures(verdicts[..|verdicts| - 1]) + if Fails(verdicts[|verdicts| - 1]) then 1 else 0
  }

  /** What one line does to the array and to claimed, and what is said of it. */
  ghost predicate LineRun(already: map<string, string>, ns: string, l: Line, dryRun: bool, before: Store, after: Store,
                          claimed: map<string, string>, claims: map<string, string>, verdict: Verdict)
  {
    var would := Triage(already, claimed, ns, l) == Would;
    && claims == (if would then claimed[Value(ns, l.dn) := l.an] else claimed)
    && after == (if would && !dryRun then AfterAdopt(before, ns, l.dn, l.an) else before)
    && verdict == if !would || dryRun then Triage(already, claimed, ns, l)
                  else if Succeeds(AdoptResult(before, ns, l.dn, l.an)) then Done else Failed
  }

  class Array {
    var vols: Store

    /** driver.Adopt. */
    method Adopt(ns: string, dn: string, an: string) returns (ok: bool)
      modifies this
      ensures vols == AfterAdopt(old(vols), ns, dn, an)
      ensures ok == Succeeds(AdoptResult(old(vols), ns, dn, an))
    {
      if dn == "" || an == "" {
        return false;
      }
      if an !in vols || !vols[an].live {
        return false;
      }
      var existing := Lookup(vols, Value(ns, dn));
      if existing != Nobody && existing != One(an) {
        return false;
      }
      var tags := ListTags(vols, ns + "/");
      if an in tags {
        return tags[an] == Value(ns, dn);
      }
      vols := vols[an := vols[an].(tag := Some(Value(ns, dn)))];
      return true;
    }

    method RunLine(ns: string, l: Line, dryRun: bool, already: map<string, string>, claimed: map<string, string>)
      returns (verdict: Verdict, claims: map<string, string>)
      modifies this
      ensures LineRun(already, ns, l, dryRun, old(vols), vols, claimed, claims, verdict)
    {
      var want := Value(ns, l.dn);
      claims := claimed;
      if l.an in already && already[l.an] == want {
        return Skip, claims;
      }
      if l.an in already && already[l.an] != "" {
        return TaggedOther, claims;
      }
      if want in claimed && claimed[want] != "" && claimed[want] != l.an {
        return ClaimedOther, claims;
      }
      claims := claimed[want := l.an];
      if dryRun {
        return Would, claims;
      }
      var ok := Adopt(ns, l.dn, l.an);
      return if ok then Done else Failed, claims;
    }

    /** The loop of adopt, over a plan in any order. */
    method RunPlan(ns: string, plan: seq<Line>, dryRun: bool)
      returns (verdicts: seq<Verdict>, failed: nat, ghost start: map<string, string>)
      modifies this
      ensures Inverse(ListTags(old(vols), ns + "/"), start) && |verdicts| == |plan|
      ensures forall i | 0 <= i < |plan| :: verdicts[i] == VerdictOf(old(vols), start, ns, plan, dryRun, i)
      ensures vols == if dryRun then old(vols) else Applied(old(vols), start, ns, plan)
      ensures failed == |FailedLines(verdicts)|
    {
      ghost var was := vols;
      var already := ListTags(vols, ns + "/");
      var claimed := Invert(already);
      start := claimed;
      verdicts, failed := [], 0;
      PlanStarts(was, start, ns, plan, dryRun);
      for i := 0 to |plan|
        invariant PlanAt(was, start, ns, plan, dryRun, i, vols, claimed, verdicts) && failed == Failures(verdicts)
      {
        ghost var before := vols;
        var verdict: Verdict, claims: map<string, string>;
        verdict, claims := RunLine(ns, plan[i], dryRun, already, claimed);
        PlanGoesOn(was, start, ns, plan, dryRun, i, before, vols, claimed, claims, verdicts, verdict);
        FailuresOnceMore(verdicts, verdict);
        claimed, failed := claims, if Fails(verdict) then failed + 1 else failed;
        verdicts := verdicts + [verdict];
      }
      assert plan[..|plan|] == plan;
      FailuresCount(verdicts);
    }
  }

  /** How things are in the loop of adopt before line i. */
  ghost predicate PlanAt(was: Store, start: map<string, string>, ns: string, plan: seq<Line>, dryRun: bool, i: nat,
                         vols: Store, claimed: map<string, string>, verdicts: seq<Verdict>)
    requires i <= |plan|
  {
    && |verdicts| == i && claimed == Claims(ListTags(was, ns + "/"), start, ns, plan[..i])
    && vols == (if dryRun then was else Applied(was, start, ns, plan[..i]))
    && forall k | 0 <= k < i :: verdicts[k] == VerdictOf(was, start, ns, plan, dryRun, k)
  }

  lemma PlanStarts(was: Store, start: map<string, string>, ns: string, plan: seq<Line>, dryRun: bool)
    ensures PlanAt(was, start, ns, plan, dryRun, 0, was, start, [])
  {
  }

  lemma PlanGoesOn(was: Store, start: map<string, string>, ns: string, plan: seq<Line>, dryRun: bool, i: nat,
                   before: Store, after: Store, claimed: map<string, string>, claims: map<string, string>,
                   verdicts: seq<Verdict>, verdict: Verdict)
    requires i < |plan| && PlanAt(was, start, ns, plan, dryRun, i, before, claimed, verdicts)
    requires LineRun(ListTags(was, ns + "/"), ns, plan[i], dryRun, before, after, claimed, claims, verdict)
    ensures PlanAt(was, start, ns, plan, dryRun, i + 1, after, claims, verdicts + [verdict])
  {
    OneMoreLine(was, start, ns, plan, i);
  }

  lemma FailuresOnceMore(verdicts: seq<Verdict>, v: Verdict)
    ensures Failures(verdicts + [v]) == Failures(verdicts) + if Fails(v) then 1 else 0
  {
  }

  lemma OneMoreLine(s: Store, claimed: map<string, string>, ns: string, plan: seq<Line>, i: nat)
    requires i < |plan|
    ensures var already, l := ListTags(s, ns + "/"), plan[i];
            var claims, t := Claims(already, claimed, ns, plan[..i]), Applied(s, claimed, ns, plan[..i]);
            var would := Triage(already, claims, ns, l) == Would;
            && Claims(already, claimed, ns, plan[..i + 1]) == (if would then claims[Value(ns, l.dn) := l.an] else claims)
            && Applied(s, claimed, ns, plan[..i + 1]) == (if would then AfterAdopt(t, ns, l.dn, l.an) else t)
  {
    assert plan[..i + 1][..i] == plan[..i];
  }

  method Invert(already: map<string, string>) returns (claimed: map<string, string>)
    ensures Inverse(already, claimed)
  {
    claimed := map[];
    var left := already.Keys;
    while left != {}
      invariant left <= already.Keys
      invariant forall an | an in already && an !in left :: already[an] in claimed
      invariant forall value | value in claimed :: claimed[value] in already && already[claimed[value]] == value
    {
      var an :| an in left;
      claimed := claimed[already[an] := an];
      left := left - {an};
    }
  }

  // Dry run and real run ---------------------------------------------------------------------

  lemma ValueInjective(ns: string, a: string, b: string)
    requires Value(ns, a) == Value(ns, b)
    ensures a == b
  {
    assert a == Value(ns, a)[|ns| + 1..] && b == Value(ns, b)[|ns| + 1..];
  }

  /** After any number of lines of a real run: which volumes there are and which are live is as
      before; tags of the namespace belong to those who claimed them, and were there at the start or
      come from a line the dry run would adopt. */
  ghost predicate InStep(s: Store, claimed: map<string, string>, ns: string, plan: seq<Line>, n: nat)
    requires n <= |plan|
  {
    var already, t := ListTags(s, ns + "/"), Applied(s, claimed, ns, plan[..n]);
    var claims := Claims(already, claimed, ns, plan[..n]);
    && t.Keys == s.Keys && (forall a | a in s :: t[a].live == s[a].live)
    && Injective(t, ns + "/") && Submap(already, ListTags(t, ns + "/"))
    && (forall a, value | ns + "/" <= value && Tagged(t, a, value) ::
          && value in claims && claims[value] == a
          && (a in already || exists j | 0 <= j < n :: WouldTag(already, claimed, ns, plan, j, a, value)))
  }

  ghost predicate WouldTag(already: map<string, string>, claimed: map<string, string>, ns: string, plan: seq<Line>, j: nat,
                           a: string, value: string)
    requires j < |plan|
  {
    DryVerdict(already, claimed, ns, plan, j) == Would && plan[j].an == a && Value(ns, plan[j].dn) == value
  }

  lemma StartsInStep(s: Store, claimed: map<string, string>, ns: string, plan: seq<Line>)
    requires Injective(s, ns + "/") && Inverse(ListTags(s, ns + "/"), claimed)
    ensures InStep(s, claimed, ns, plan, 0)
  {
    var already := ListTags(s, ns + "/");
    assert plan[..0] == [];
    forall a, value | ns + "/" <= value && Tagged(s, a, value)
      ensures value in claimed && claimed[value] == a && a in already
    {
      assert already[a] == value;
      assert Tagged(s, claimed[value], value);
    }
  }

  /** The tags after one more line, of those before it or its own. */
  lemma TagsAfterLine(before: Store, ns: string, l: Line, a: string, value: string)
    requires Tagged(AfterAdopt(before, ns, l.dn, l.an), a, value)
    ensures Tagged(before, a, value) || (a == l.an && value == Value(ns, l.dn))
  {
  }

  lemma {:induction false} StaysInStep(s: Store, claimed: map<string, string>, ns: string, plan: seq<Line>, n: nat)
    requires "" !in s && Injective(s, ns + "/") && Inverse(ListTags(s, ns + "/"), claimed) && n <= |plan|
    ensures InStep(s, claimed, ns, plan, n)
  {
    if n == 0 {
      StartsInStep(s, claimed, ns, plan);
    } else {
      var already, k := ListTags(s, ns + "/"), n - 1;
      StaysInStep(s, claimed, ns, plan, k);
      assert plan[..n][..k] == plan[..k];
      var before, l := Applied(s, claimed, ns, plan[..k]), plan[k];
      if DryVerdict(already, claimed, ns, plan, k) == Would {
        AdoptKeepsTags(before, ns, l.dn, l.an, ns + "/");
        OneMoreInStep(s, claimed, ns, plan, k);
      } else {
        SameInStep(s, claimed, ns, plan, k);
      }
    }
  }

  lemma SameInStep(s: Store, claimed: map<string, string>, ns: string, plan: seq<Line>, k: nat)
    requires k < |plan| && InStep(s, claimed, ns, plan, k)
    requires DryVerdict(ListTags(s, ns + "/"), claimed, ns, plan, k) != Would
    ensures InStep(s, claimed, ns, plan, k + 1)
  {
    assert plan[..k + 1][..k] == plan[..k];
  }

  lemma OneMoreInStep(s: Store, claimed: map<string, string>, ns: string, plan: seq<Line>, k: nat)
    requires "" !in s && k < |plan| && InStep(s, claimed, ns, plan, k)
    requires DryVerdict(ListTags(s, ns + "/"), claimed, ns, plan, k) == Would
    ensures InStep(s, claimed, ns, plan, k + 1)
  {
    var already, l := ListTags(s, ns + "/"), plan[k];
    assert plan[..k + 1][..k] == plan[..k];
    var before, t := Applied(s, claimed, ns, plan[..k]), Applied(s, claimed, ns, plan[..k + 1]);
    AdoptKeepsTags(before, ns, l.dn, l.an, ns + "/");
    var claims, more := Claims(already, claimed, ns, plan[..k]), Claims(already, claimed, ns, plan[..k + 1]);
    assert more == claims[Value(ns, l.dn) := l.an];
    forall a, value | ns + "/" <= value && Tagged(t, a, value)
      ensures value in more && more[value] == a
      ensures a in already || exists j | 0 <= j < k + 1 :: WouldTag(already, claimed, ns, plan, j, a, value)
    {
      TagsAfterLine(before, ns, l, a, value);
      if Tagged(before, a, value) {
        assert value in claims && claims[value] == a && a in s;
      } else {
        assert WouldTag(already, claimed, ns, plan, k, a, value);
      }
    }
  }

  /** What must hold of a line the dry run would adopt for the real run to adopt it: it names a
      Docker volume, its array volume is there and live, and no earlier such line wants that array
      volume under another name. */
  ghost predicate Sane(s: Store, claimed: map<string, string>, ns: string, plan: seq<Line>, i: nat)
    requires i < |plan|
  {
    var already, l := ListTags(s, ns + "/"), plan[i];
    && l.dn != "" && l.an in s && s[l.an].live
    && forall j | 0 <= j < i && DryVerdict(already, claimed, ns, plan, j) == Would && plan[j].an == l.an :: plan[j].dn == l.dn
  }

  lemma TagsAreNotEmpty(s: Store, ns: string, an: string)
    ensures var already := ListTags(s, ns + "/"); an in already ==> already[an] != ""
  {
  }

  lemma SaneLineIsAdopted(s: Store, claimed: map<string, string>, ns: string, plan: seq<Line>, i: nat)
    requires "" !in s && Injective(s, ns + "/") && Inverse(ListTags(s, ns + "/"), claimed) && i < |plan|
    requires DryVerdict(ListTags(s, ns + "/"), claimed, ns, plan, i) == Would && Sane(s, claimed, ns, plan, i)
    ensures RealVerdict(s, claimed, ns, plan, i) == Done
  {
    StaysInStep(s, claimed, ns, plan, i);
    var already, l, t := ListTags(s, ns + "/"), plan[i], Applied(s, claimed, ns, plan[..i]);
    forall a | Tagged(t, a, Value(ns, l.dn)) ensures a == l.an {
      assert ns + "/" <= Value(ns, l.dn);
    }
    forall v | Tagged(t, l.an, v) && ns + "/" <= v ensures v == Value(ns, l.dn) {
      TagsAreNotEmpty(s, ns, l.an);
      var j :| 0 <= j < i && WouldTag(already, claimed, ns, plan, j, l.an, v);
    }
    AdoptSucceedsIff(t, ns, l.dn, l.an);
  }

  lemma TagSurvivesAdopt(s: Store, ns: string, dn: string, adopted: string, an: string, value: string)
    requires Injective(s, ns + "/") && Tagged(s, an, value) && ns + "/" <= value
    ensures Tagged(AfterAdopt(s, ns, dn, adopted), an, value)
  {
    AdoptKeepsTags(s, ns, dn, adopted, ns + "/");
    assert ListTags(s, ns + "/")[an] == value;
    assert an in ListTags(AfterAdopt(s, ns, dn, adopted), ns + "/");
  }

  lemma {:induction false} AdoptedStaysTagged(s: Store, claimed: map<string, string>, ns: string, plan: seq<Line>, j: nat, n: nat)
    requires "" !in s && Injective(s, ns + "/") && Inverse(ListTags(s, ns + "/"), claimed) && j < n <= |plan|
    requires RealVerdict(s, claimed, ns, plan, j) == Done
    ensures Tagged(Applied(s, claimed, ns, plan[..n]), plan[j].an, Value(ns, plan[j].dn))
  {
    var k := n - 1;
    assert plan[..n][..k] == plan[..k];
    var before, l := Applied(s, claimed, ns, plan[..k]), plan[k];
    StaysInStep(s, claimed, ns, plan, k);
    assert Applied(s, claimed, ns, plan[..n]) in {before, AfterAdopt(before, ns, l.dn, l.an)};
    if j == k {
      AdoptKeepsTags(before, ns, l.dn, l.an, ns + "/");
    } else {
      AdoptedStaysTagged(s, claimed, ns, plan, j, k);
      TagSurvivesAdopt(before, ns, l.dn, l.an, plan[j].an, Value(ns, plan[j].dn));
    }
  }

  lemma AdoptedLineIsSane(s: Store, claimed: map<string, string>, ns: string, plan: seq<Line>, i: nat)
    requires "" !in s && Injective(s, ns + "/") && Inverse(ListTags(s, ns + "/"), claimed) && i < |plan|
    requires forall j | 0 <= j < |plan| :: RealVerdict(s, claimed, ns, plan, j) != Failed
    requires DryVerdict(ListTags(s, ns + "/"), claimed, ns, plan, i) == Would
    ensures Sane(s, claimed, ns, plan, i)
  {
    StaysInStep(s, claimed, ns, plan, i);
    var already, l, t := ListTags(s, ns + "/"), plan[i], Applied(s, claimed, ns, plan[..i]);
    assert RealVerdict(s, claimed, ns, plan, i) == Done;
    AdoptSucceedsIff(t, ns, l.dn, l.an);
    forall j | 0 <= j < i && DryVerdict(already, claimed, ns, plan, j) == Would && plan[j].an == l.an
      ensures plan[j].dn == l.dn
    {
      assert RealVerdict(s, claimed, ns, plan, j) != Failed;
      AdoptedStaysTagged(s, claimed, ns, plan, j, i);
      assert ns + "/" <= Value(ns, plan[j].dn);
      ValueInjective(ns, plan[j].dn, l.dn);
    }
  }

  /** The two runs say the same on every line, adopted for would, exactly when every line the dry
      run would adopt is sane. */
  lemma DryRunTellsTheTruthIff(s: Store, claimed: map<string, string>, ns: string, plan: seq<Line>)
    requires "" !in s && Injective(s, ns + "/") && Inverse(ListTags(s, ns + "/"), claimed)
    ensures (forall i | 0 <= i < |plan| :: RealVerdict(s, claimed, ns, plan, i) != Failed) <==>
            (forall i | 0 <= i < |plan| && DryVerdict(ListTags(s, ns + "/"), claimed, ns, plan, i) == Would ::
              Sane(s, claimed, ns, plan, i))
  {
    if forall i | 0 <= i < |plan| :: RealVerdict(s, claimed, ns, plan, i) != Failed {
      forall i | 0 <= i < |plan| && DryVerdict(ListTags(s, ns + "/"), claimed, ns, plan, i) == Would
        ensures Sane(s, claimed, ns, plan, i)
      {
        AdoptedLineIsSane(s, claimed, ns, plan, i);
      }
    }
    if forall i | 0 <= i < |plan| && DryVerdict(ListTags(s, ns + "/"), claimed, ns, plan, i) == Would :: Sane(s, claimed, ns, plan, i) {
      forall i | 0 <= i < |plan| ensures RealVerdict(s, claimed, ns, plan, i) != Failed {
        if DryVerdict(ListTags(s, ns + "/"), claimed, ns, plan, i) == Would {
          SaneLineIsAdopted(s, claimed, ns, plan, i);
        }
      }
    }
  }

  /** One array volume listed under two Docker names: the dry run would adopt both, the real run one. */
  lemma TwoNamesForOneVolume(ns: string, an: string)
    requires an != ""
    ensures var s: Store, plan := map[an := Vol(true, None)], [Line(an, "a"), Line(an, "b")];
            && Inverse(ListTags(s, ns + "/"), map[]) && Injective(s, ns + "/")
            && DryVerdict(ListTags(s, ns + "/"), map[], ns, plan, 1) == Would
            && RealVerdict(s, map[], ns, plan, 1) == Failed
  {
    var s: Store, plan := map[an := Vol(true, None)], [Line(an, "a"), Line(an, "b")];
    StartsInStep(s, map[], ns, plan);
    assert plan[..0] == [] && plan[..1] == [Line(an, "a")] && plan[..1][..0] == [];
    AdoptSucceedsIff(s, ns, "a", an);
    ValueDiffers(ns);
    var t := Applied(s, map[], ns, plan[..1]);
    assert t == AfterAdopt(s, ns, "a", an);
    AdoptSucceedsIff(t, ns, "b", an);
    assert Tagged(t, an, Value(ns, "a")) && ns + "/" <= Value(ns, "a");
  }

  lemma ValueDiffers(ns: string)
    ensures Value(ns, "a") != Value(ns, "b")
  {
    if Value(ns, "a") == Value(ns, "b") {
      ValueInjective(ns, "a", "b");
    }
  }

  /** A real run only adds to the namespace's tags, keeps them one to a volume, and touches no tag
      but those of the volumes it adopts. */
  lemma {:induction false} RealRunExtendsTags(s: Store, claimed: map<string, string>, ns: string, plan: seq<Line>, a: string)
    requires "" !in s && Injective(s, ns + "/") && Inverse(ListTags(s, ns + "/"), claimed)
    ensures var t := Applied(s, claimed, ns, plan);
            && Injective(t, ns + "/") && Submap(ListTags(s, ns + "/"), ListTags(t, ns + "/")) && t.Keys == s.Keys
            && (forall i | 0 <= i < |plan| && RealVerdict(s, claimed, ns, plan, i) == Done ::
                  Tagged(t, plan[i].an, Value(ns, plan[i].dn)))
            && (a in s && (forall i | 0 <= i < |plan| && plan[i].an == a :: RealVerdict(s, claimed, ns, plan, i) != Done) ==>
                  t[a] == s[a])
  {
    assert plan[..|plan|] == plan;
    StaysInStep(s, claimed, ns, plan, |plan|);
    forall i | 0 <= i < |plan| && RealVerdict(s, claimed, ns, plan, i) == Done
      ensures Tagged(Applied(s, claimed, ns, plan), plan[i].an, Value(ns, plan[i].dn))
    {
      AdoptedStaysTagged(s, claimed, ns, plan, i, |plan|);
    }
    if a in s && forall i | 0 <= i < |plan| && plan[i].an == a :: RealVerdict(s, claimed, ns, plan, i) != Done {
      UntouchedBy(s, claimed, ns, plan, a, |plan|);
    }
  }

  lemma {:induction false} UntouchedBy(s: Store, claimed: map<string, string>, ns: string, plan: seq<Line>, a: string, n: nat)
    requires a in s && n <= |plan|
    requires forall i | 0 <= i < |plan| && plan[i].an == a :: RealVerdict(s, claimed, ns, plan, i) != Done
    ensures var t := Applied(s, claimed, ns, plan[..n]); a in t && t[a] == s[a]
  {
    if n > 0 {
      UntouchedBy(s, claimed, ns, plan, a, n - 1);
      assert plan[..n][..n - 1] == plan[..n - 1];
      assert plan[n - 1].an == a ==> RealVerdict(s, claimed, ns, plan, n - 1) != Done;
    }
  }

  // What a run says --------------------------------------------------------------------------

  /** What is said of a line, by the tags at the start and what is claimed so far. */
  lemma TriageSays(already: map<string, string>, claimed: map<string, string>, ns: string, l: Line)
    ensures var want, v := ns + "/" + l.dn, Triage(already, claimed, ns, l);
            && (v == Skip <==> l.an in already && already[l.an] == want)
            && (v == TaggedOther <==> l.an in already && already[l.an] != want && already[l.an] != "")
            && (v == ClaimedOther <==>
                  && (l.an in already ==> already[l.an] == "" && want != "")
                  && want in claimed && claimed[want] != "" && claimed[want] != l.an)
            && v in {Skip, TaggedOther, ClaimedOther, Would}
  {
  }

  /** In either run a line is skipped exactly if its volume carried the tag at the start, and a conflict
      exactly if it carried another of the namespace. */
  lemma LinesSay(s: Store, claimed: map<string, string>, ns: string, plan: seq<Line>, dryRun: bool, i: nat)
    requires i < |plan|
    ensures var an, want, v := plan[i].an, ns + "/" + plan[i].dn, VerdictOf(s, claimed, ns, plan, dryRun, i);
            && (v == Skip <==> Tagged(s, an, want))
            && (v == TaggedOther <==> exists value :: Tagged(s, an, value) && ns + "/" <= value && value != want)
            && (dryRun ==> v != Done && v != Failed) && (!dryRun ==> v != Would)
  {
    var already, an := ListTags(s, ns + "/"), plan[i].an;
    TriageSays(already, Claims(already, claimed, ns, plan[..i]), ns, plan[i]);
    TagsAreNotEmpty(s, ns, an);
    assert ns + "/" <= ns + "/" + plan[i].dn;
    if an in already {
      assert Tagged(s, an, already[an]) && ns + "/" <= already[an];
    }
  }

  /** The lines a run counts as failed: every conflict, and every adoption that failed. */
  function FailedLines(verdicts: seq<Verdict>): set<nat> {
    set i: nat | i < |verdicts| && verdicts[i] in {TaggedOther, ClaimedOther, Failed}
  }

  lemma {:induction false} FailuresCount(verdicts: seq<Verdict>)
    ensures Failures(verdicts) == |FailedLines(verdicts)|
  {
    if verdicts != [] {
      var n := |verdicts| - 1;
      FailuresCount(verdicts[..n]);
      assert FailedLines(verdicts) == FailedLines(verdicts[..n]) + if verdicts[n] in {TaggedOther, ClaimedOther, Failed} then {n} else {};
    }
  }

  // Over any sequence of operations ----------------------------------------------------------

  /** Operations one after the other. cached: the name this node remembers for dn; computed: its
      name by convention; spare: the free name found beside a destroyed volume; tagged: SetNameTag
      worked. parked: the name a removed volume is moved to first. Recover is the administrator's. */
  datatype NameOp =
    | Create(ns: string, dn: string, cached: Option<string>, computed: string, spare: string, tagged: bool)
    | Import(ns: string, dn: string, an: string)
    | Remove(an: string, parked: Option<string>, eradicated: bool)
    | Recover(an: string)

  /** The volume Create makes, if it makes one. */
  function Created(s: Store, op: NameOp): Option<string>
    requires op.Create?
  {
    if op.cached.Some? && op.cached.value in s && s[op.cached.value].live then None
    else if Lookup(s, Value(op.ns, op.dn)) != Nobody then None
    else if op.computed !in s then Some(op.computed)
    else if s[op.computed].live || op.spare in s then None
    else Some(op.spare)
  }

  function AfterNameOp(s: Store, op: NameOp): Store {
    match op
    case Create(ns, dn, _, _, _, tagged) =>
      if Created(s, op).None? then s
      else s[Created(s, op).value := Vol(true, if tagged then Some(Value(ns, dn)) else None)]
    case Import(ns, dn, an) => AfterAdopt(s, ns, dn, an)
    case Remove(an, parked, eradicated) =>
      if an !in s then s
      else if eradicated then s - {an}
      else if parked.Some? && parked.value !in s then (s - {an})[parked.value := s[an].(live := false)]
      else s[an := s[an].(live := false)]
    case Recover(an) => if an in s then s[an := s[an].(live := true)] else s
  }

  /** Create makes a volume unless the name is taken already, by the live volume remembered for it or a
      live one tagged with it; it takes the place of no other, a destroyed one included. */
  lemma CreatedIsNew(s: Store, op: NameOp)
    requires op.Create?
    ensures var t, c, value := AfterNameOp(s, op), Created(s, op), Value(op.ns, op.dn);
            && (t == s <==> c.None?)
            && (c.Some? ==> c.value !in s && t == s[c.value := Vol(true, if op.tagged then Some(value) else None)])
            && (c.Some? <==>
                  && (op.cached.None? || op.cached.value !in s || !s[op.cached.value].live)
                  && (forall a :: !Tagged(s, a, value))
                  && if op.computed in s then !s[op.computed].live && op.spare !in s else true)
            && (c.Some? ==> c.value == if op.computed in s then op.spare else op.computed)
  {
    LookupSays(s, Value(op.ns, op.dn), "");
  }

  /** What Create makes and tags is what the name resolves to from then on. */
  lemma CreatedIsFound(s: Store, op: NameOp)
    requires op.Create? && op.tagged && Created(s, op).Some?
    ensures Lookup(AfterNameOp(s, op), Value(op.ns, op.dn)) == One(Created(s, op).value)
  {
    var t, value, an := AfterNameOp(s, op), Value(op.ns, op.dn), Created(s, op).value;
    LookupSays(s, value, an);
    forall a | Tagged(t, a, value) ensures a == an {
      assert a != an ==> Tagged(s, a, value);
    }
    LookupSays(t, value, an);
  }

  lemma NameOpKeepsInjective(s: Store, op: NameOp, prefix: string)
    requires Injective(s, prefix) && !op.Recover?
    ensures Injective(AfterNameOp(s, op), prefix)
  {
    var t := AfterNameOp(s, op);
    if op.Import? {
      AdoptKeepsTags(s, op.ns, op.dn, op.an, prefix);
    } else if op.Create? && Created(s, op).Some? {
      LookupSays(s, Value(op.ns, op.dn), "");
      forall a, b, value | prefix <= value && Tagged(t, a, value) && Tagged(t, b, value) ensures a == b {
        assert a != Created(s, op).value ==> Tagged(s, a, value);
        assert b != Created(s, op).value ==> Tagged(s, b, value);
      }
    } else {
      forall a, b, value | prefix <= value && Tagged(t, a, value) && Tagged(t, b, value) ensures a == b {
        assert Tagged(s, a, value) && Tagged(s, b, value);
      }
    }
  }

  /** Name tags on live volumes stay one to a volume, whatever is created, imported, adopted and
      removed, in one namespace or all of them. */
  lemma {:induction false} RunsKeepInjective(stores: seq<Store>, ops: seq<NameOp>, prefix: string, n: nat)
    requires |stores| == |ops| + 1 && n <= |ops| && Injective(stores[0], prefix)
    requires forall i | 0 <= i < |ops| :: !ops[i].Recover? && stores[i + 1] == AfterNameOp(stores[i], ops[i])
    ensures Injective(stores[n], prefix)
  {
    if n > 0 {
      RunsKeepInjective(stores, ops, prefix, n - 1);
      NameOpKeepsInjective(stores[n - 1], ops[n - 1], prefix);
    }
  }

  /** Such a recovery: a volume is removed, its name created anew beside it, and the old one recovered. */
  lemma RecoveredBesideItsSuccessor(ns: string, dn: string, an: string, spare: string)
    requires an != spare
    ensures var s0: Store := map[an := Vol(true, Some(Value(ns, dn)))];
            var s2 := AfterNameOp(AfterNameOp(s0, Remove(an, None, false)), Create(ns, dn, None, an, spare, true));
            Injective(s2, ns + "/") && !Injective(AfterNameOp(s2, Recover(an)), ns + "/")
  {
    var s0: Store, value := map[an := Vol(true, Some(Value(ns, dn)))], Value(ns, dn);
    var s1, create := AfterNameOp(s0, Remove(an, None, false)), Create(ns, dn, None, an, spare, true);
    assert s1 == map[an := Vol(false, Some(value))];
    assert Lookup(s1, value) == Nobody by {
      LookupSays(s1, value, an);
    }
    var s2 := AfterNameOp(s1, create);
    assert Created(s1, create) == Some(spare);
    NameOpKeepsInjective(s1, create, ns + "/");
    var s3 := AfterNameOp(s2, Recover(an));
    assert Tagged(s3, an, value) && Tagged(s3, spare, value);
    assert ns + "/" <= value;
  }

  /** Recovering a destroyed volume keeps it so exactly when no live one has taken its name since. */
  lemma RecoverKeepsInjectiveIff(s: Store, an: string, prefix: string)
    requires Injective(s, prefix) && an in s
    ensures Injective(AfterNameOp(s, Recover(an)), prefix) <==>
            forall b, value | prefix <= value && s[an].tag == Some(value) && Tagged(s, b, value) :: b == an
  {
    var t := AfterNameOp(s, Recover(an));
    if Injective(t, prefix) {
      forall b, value | prefix <= value && s[an].tag == Some(value) && Tagged(s, b, value) ensures b == an {
        assert Tagged(t, an, value) && Tagged(t, b, value);
      }
    }
    if forall b, value | prefix <= value && s[an].tag == Some(value) && Tagged(s, b, value) :: b == an {
      forall a, b, value | prefix <= value && Tagged(t, a, value) && Tagged(t, b, value) ensures a == b {
        assert a != an ==> Tagged(s, a, value);
        assert b != an ==> Tagged(s, b, value);
      }
    }
  }
}
