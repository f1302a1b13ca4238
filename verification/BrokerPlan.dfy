/** What the ranks of a `LocalBroker` do between one `sync` and the next, when they make the
    same calls of `exchange_data`, `exchange_fds` and `sync` in any order.
 */
module BrokerPlan {

  datatype Call = Data | Fds | Bare

  /** Part of the call with number `c`. */
  datatype Section =
    | Nothing
    | Write(c: nat)  // copy the own bytes into the vault
    | Read(c: nat)   // copy all cells out
    | Pass(c: nat)   // send and receive descriptors

  /** The section after each return from `sync`; none comes before the first.  Cells are read
      right after the section they are written in, and after descriptors have been passed comes
      a section that belongs to no call.
   */
  ghost predicate PlanOk(plan: nat -> Section) {
    && plan(0) == Nothing
    && (forall d: nat :: plan(d).Write? ==> plan(d + 1) == Read(plan(d).c))
    && (forall d: nat :: plan(d + 1).Read? ==> plan(d) == Write(plan(d + 1).c))
    && (forall d: nat :: plan(d).Pass? ==> plan(d + 1) == Nothing)
  }

  /** The sections that a call opens: one for each `sync` in it. */
  function SectionsOf(call: Call, c: nat): seq<Section> {
    match call
    case Data => [Write(c), Read(c)]
    case Fds => [Pass(c), Nothing]
    case Bare => [Nothing]
  }

  function AllSections(calls: seq<Call>, n: nat): seq<Section>
    requires n <= |calls|
  {
    if n == 0 then [] else AllSections(calls, n - 1) + SectionsOf(calls[n - 1], n - 1)
  }

  /** The plan of a program of calls; afterwards the ranks do nothing more. */
  ghost function PlanOf(calls: seq<Call>): nat -> Section {
    var all := AllSections(calls, |calls|);
    (d: nat) => if 0 < d <= |all| then all[d - 1] else Nothing
  }

  /** Every section has the neighbour it needs. */
  ghost predicate Paired(all: seq<Section>) {
    && (forall k :: 0 <= k < |all| && all[k].Write? ==> k + 1 < |all| && all[k + 1] == Read(all[k].c))
    && (forall k :: 0 <= k < |all| && all[k].Read? ==> 0 < k && all[k - 1] == Write(all[k].c))
    && (forall k :: 0 <= k < |all| && all[k].Pass? ==> k + 1 < |all| && all[k + 1] == Nothing)
  }

  lemma PairedBoth(all: seq<Section>, more: seq<Section>)
    requires Paired(all) && Paired(more)
    ensures Paired(all + more)
  {
    var both := all + more;
    forall k | 0 <= k < |both|
      ensures both[k].Write? ==> k + 1 < |both| && both[k + 1] == Read(both[k].c)
      ensures both[k].Read? ==> 0 < k && both[k - 1] == Write(both[k].c)
      ensures both[k].Pass? ==> k + 1 < |both| && both[k + 1] == Nothing
    {
      if k >= |all| {
        assert both[k] == more[k - |all|];
      }
    }
  }

  lemma {:induction false} SectionsPaired(calls: seq<Call>, n: nat)
    requires n <= |calls|
    ensures Paired(AllSections(calls, n))
  {
    if n == 0 {
    } else {
      SectionsPaired(calls, n - 1);
      assert Paired(SectionsOf(calls[n - 1], n - 1));
      PairedBoth(AllSections(calls, n - 1), SectionsOf(calls[n - 1], n - 1));
    }
  }

  /** Every program of calls makes such a plan. */
  lemma CallsMakePlan(calls: seq<Call>)
    ensures PlanOk(PlanOf(calls))
  {
    SectionsPaired(calls, |calls|);
  }

  lemma {:induction false} SectionsPrefix(calls: seq<Call>, m: nat, n: nat)
    requires m <= n <= |calls|
    ensures AllSections(calls, m) <= AllSections(calls, n)
  {
    if m == n {
    } else {
      SectionsPrefix(calls, m, n - 1);
    }
  }

  /** How often a rank has been through `sync` when it begins call `c`. */
  function SyncsBefore(calls: seq<Call>, c: nat): nat
    requires c <= |calls|
  {
    if c == 0 then 0 else SyncsBefore(calls, c - 1) + if calls[c - 1] == Bare then 1 else 2
  }

  lemma {:induction false} SectionsCounted(calls: seq<Call>, n: nat)
    requires n <= |calls|
    ensures |AllSections(calls, n)| == SyncsBefore(calls, n)
  {
    if n == 0 {
    } else {
      SectionsCounted(calls, n - 1);
    }
  }

  lemma PlanHasCall(calls: seq<Call>, c: nat, k: nat)
    requires c < |calls| && k < |SectionsOf(calls[c], c)|
    ensures PlanOf(calls)(SyncsBefore(calls, c) + 1 + k) == SectionsOf(calls[c], c)[k]
  {
    SectionsCounted(calls, c);
    SectionsPrefix(calls, c + 1, |calls|);
    assert AllSections(calls, c + 1)[|AllSections(calls, c)| + k] == SectionsOf(calls[c], c)[k];
  }

  /** What a rank does after the first and the second `sync` of each call. */
  lemma PlanOfCall(calls: seq<Call>, c: nat)
    requires c < |calls|
    ensures var plan, d := PlanOf(calls), SyncsBefore(calls, c);
            match calls[c]
            case Data => plan(d + 1) == Write(c) && plan(d + 2) == Read(c)
            case Fds => plan(d + 1) == Pass(c) && plan(d + 2) == Nothing
            case Bare => plan(d + 1) == Nothing
  {
    PlanHasCall(calls, c, 0);
    if calls[c] != Bare {
      PlanHasCall(calls, c, 1);
    }
  }
}
