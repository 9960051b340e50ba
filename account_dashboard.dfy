/** The summary line of the Accounts dashboard entry: which account-type
    labels are shown (at most three, in order, empty labels skipped), or the
    default summary when the user has no enabled account type.

    The collaborators the dashboard asks at run time are parameters here:
    the enabled account types (None for a null array), the label of a type
    (None for a null label), the bidi wrapping of a label and the
    locale-aware list formatter. */
module AccountDashboard {

  datatype Option<+T> = None | Some(value: T)

  /** An opaque account-type identifier, such as "com.google". */
  type AccountType = string

  /** A display label as the authenticator reports it: None stands for null. */
  type Label = Option<string>

  /** The largest number of account-type labels the summary shows. */
  const MAX_SHOWN: nat := 3

  function Min(a: nat, b: nat): (r: nat) { if a <= b then a else b }

  /** The emptiness test of the label: null or of length zero. */
  predicate IsEmpty(text: Label) {
    text.None? || text.value == []
  }

  // ---------------------------------------------------------------------
  // Specification of the selection loop

  /** What the loop appends when it scans `types` with `cap` slots left:
      empty labels are skipped without using a slot, every other label is
      wrapped and uses one slot, and scanning ends when no slot is left. */
  function Selected(types: seq<AccountType>, labelOf: AccountType -> Label,
                    wrap: string -> string, cap: nat): (r: seq<string>)
    ensures |r| <= cap && |r| <= |types|
  {
    if types == [] || cap == 0 then []
    else if IsEmpty(labelOf(types[0])) then Selected(types[1..], labelOf, wrap, cap)
    else [wrap(labelOf(types[0]).value)] + Selected(types[1..], labelOf, wrap, cap - 1)
  }

  /** How many types the loop looks up a label for before it stops. */
  function Lookups(types: seq<AccountType>, labelOf: AccountType -> Label, cap: nat): (n: nat)
    ensures n <= |types|
    ensures cap == 0 ==> n == 0
  {
    if types == [] || cap == 0 then 0
    else if IsEmpty(labelOf(types[0])) then 1 + Lookups(types[1..], labelOf, cap)
    else 1 + Lookups(types[1..], labelOf, cap - 1)
  }

  /** The list handed to the formatter: the default summary alone when
      there is no enabled account type, otherwise the labels selected with
      min(3, number of types) slots. */
  function SummaryList(types: Option<seq<AccountType>>, labelOf: AccountType -> Label,
                       wrap: string -> string, defaultSummary: string): (r: seq<string>)
    ensures (types.None? || types.value == []) ==> r == [defaultSummary]
    ensures types.Some? && types.value != [] ==> |r| <= MAX_SHOWN && |r| <= |types.value|
  {
    if types.None? || types.value == [] then [defaultSummary]
    else Selected(types.value, labelOf, wrap, Min(MAX_SHOWN, |types.value|))
  }

  // ---------------------------------------------------------------------
  // Reference definition: the non-empty labels, then the first few of them

  /** The non-empty labels of `types`, in the order of the types. */
  function NonEmptyLabels(types: seq<AccountType>, labelOf: AccountType -> Label): (r: seq<string>)
    ensures |r| <= |types|
    ensures forall j :: 0 <= j < |r| ==> r[j] != []
  {
    if types == [] then []
    else if IsEmpty(labelOf(types[0])) then NonEmptyLabels(types[1..], labelOf)
    else [labelOf(types[0]).value] + NonEmptyLabels(types[1..], labelOf)
  }

  /** The first `k` elements of `s`, or all of `s` when it is shorter. */
  function Take(s: seq<string>, k: nat): (r: seq<string>)
    ensures |r| == Min(k, |s|)
    ensures r <= s
  {
    if k <= |s| then s[..k] else s
  }

  /** Every label of `labels` passed through the bidi wrapper, in order. */
  function Wrapped(labels: seq<string>, wrap: string -> string): (r: seq<string>)
    ensures |r| == |labels|
    ensures forall j :: 0 <= j < |r| ==> r[j] == wrap(labels[j])
  {
    seq(|labels|, j requires 0 <= j < |labels| => wrap(labels[j]))
  }

  // ---------------------------------------------------------------------
  // Properties of the selection

  /** The loop's result is the wrapped first `cap` non-empty labels. */
  lemma {:induction false} SelectedIsFirstNonEmpty(types: seq<AccountType>, labelOf: AccountType -> Label,
                                                   wrap: string -> string, cap: nat)
    ensures Selected(types, labelOf, wrap, cap) == Wrapped(Take(NonEmptyLabels(types, labelOf), cap), wrap)
    decreases |types|
  {
    if types == [] || cap == 0 {
    } else if IsEmpty(labelOf(types[0])) {
      SelectedIsFirstNonEmpty(types[1..], labelOf, wrap, cap);
    } else {
      var first := labelOf(types[0]).value;
      var rest := NonEmptyLabels(types[1..], labelOf);
      SelectedIsFirstNonEmpty(types[1..], labelOf, wrap, cap - 1);
      assert Take([first] + rest, cap) == [first] + Take(rest, cap - 1);
      assert Wrapped([first] + Take(rest, cap - 1), wrap)
          == [wrap(first)] + Wrapped(Take(rest, cap - 1), wrap);
    }
  }

  /** With a non-empty array the summary is the wrapped first
      min(3, number of non-empty labels) labels: the cap min(3, length)
      the Java code starts from never binds before 3 does, since there are
      never more non-empty labels than types. */
  lemma SummaryIsFirstThreeNonEmpty(types: seq<AccountType>, labelOf: AccountType -> Label,
                                    wrap: string -> string, defaultSummary: string)
    requires types != []
    ensures SummaryList(Some(types), labelOf, wrap, defaultSummary)
         == Wrapped(Take(NonEmptyLabels(types, labelOf), MAX_SHOWN), wrap)
  {
    var labels := NonEmptyLabels(types, labelOf);
    SelectedIsFirstNonEmpty(types, labelOf, wrap, Min(MAX_SHOWN, |types|));
    assert Take(labels, Min(MAX_SHOWN, |types|)) == Take(labels, MAX_SHOWN);
  }

  /** A type whose label is empty contributes nothing and uses no slot,
      wherever it stands in the array. */
  lemma {:induction false} EmptyLabelUsesNoSlot(before: seq<AccountType>, t: AccountType, after: seq<AccountType>,
                                                labelOf: AccountType -> Label, wrap: string -> string, cap: nat)
    requires IsEmpty(labelOf(t))
    ensures Selected(before + [t] + after, labelOf, wrap, cap) == Selected(before + after, labelOf, wrap, cap)
    decreases |before|
  {
    if before == [] {
      assert before + [t] + after == [t] + after;
      assert ([t] + after)[1..] == after;
      assert before + after == after;
    } else if cap == 0 {
    } else {
      assert (before + [t] + after)[0] == before[0];
      assert (before + [t] + after)[1..] == before[1..] + [t] + after;
      assert (before + after)[0] == before[0];
      assert (before + after)[1..] == before[1..] + after;
      if IsEmpty(labelOf(before[0])) {
        EmptyLabelUsesNoSlot(before[1..], t, after, labelOf, wrap, cap);
      } else {
        EmptyLabelUsesNoSlot(before[1..], t, after, labelOf, wrap, cap - 1);
      }
    }
  }

  /** When every label is empty, the array being non-empty, nothing is
      selected: the list is empty and the default summary is not used. */
  lemma {:induction false} AllEmptySelectsNothing(types: seq<AccountType>, labelOf: AccountType -> Label,
                                                  wrap: string -> string, defaultSummary: string)
    requires types != []
    requires forall i :: 0 <= i < |types| ==> IsEmpty(labelOf(types[i]))
    ensures SummaryList(Some(types), labelOf, wrap, defaultSummary) == []
  {
    NoNonEmptyLabels(types, labelOf);
    SummaryIsFirstThreeNonEmpty(types, labelOf, wrap, defaultSummary);
  }

  lemma {:induction false} NoNonEmptyLabels(types: seq<AccountType>, labelOf: AccountType -> Label)
    requires forall i :: 0 <= i < |types| ==> IsEmpty(labelOf(types[i]))
    ensures NonEmptyLabels(types, labelOf) == []
    decreases |types|
  {
    if types != [] {
      assert IsEmpty(labelOf(types[0]));
      NoNonEmptyLabels(types[1..], labelOf);
    }
  }

  /** Every selected entry is the wrapping of the non-empty label of some
      type of the array, and entries keep the relative order of their
      types: entry j comes from a type strictly before that of entry j + 1. */
  lemma {:induction false} SelectedComesFromTypes(types: seq<AccountType>, labelOf: AccountType -> Label,
                                                  wrap: string -> string, cap: nat)
    returns (origin: seq<nat>)
    ensures |origin| == |Selected(types, labelOf, wrap, cap)|
    ensures forall j :: 0 <= j < |origin| ==>
              origin[j] < |types| && !IsEmpty(labelOf(types[origin[j]])) &&
              Selected(types, labelOf, wrap, cap)[j] == wrap(labelOf(types[origin[j]]).value)
    ensures forall j :: 0 < j < |origin| ==> origin[j - 1] < origin[j]
    decreases |types|
  {
    if types == [] || cap == 0 {
      origin := [];
    } else {
      var rest: seq<nat>;
      if IsEmpty(labelOf(types[0])) {
        rest := SelectedComesFromTypes(types[1..], labelOf, wrap, cap);
        origin := seq(|rest|, j requires 0 <= j < |rest| => rest[j] + 1);
      } else {
        rest := SelectedComesFromTypes(types[1..], labelOf, wrap, cap - 1);
        origin := [0] + seq(|rest|, j requires 0 <= j < |rest| => rest[j] + 1);
      }
    }
  }

  /** Once every slot is used, whatever follows in the array changes
      nothing: a fourth non-empty label never appears. */
  lemma {:induction false} FullSelectionIgnoresRest(types: seq<AccountType>, rest: seq<AccountType>,
                                                    labelOf: AccountType -> Label, wrap: string -> string, cap: nat)
    requires |Selected(types, labelOf, wrap, cap)| == cap
    ensures Selected(types + rest, labelOf, wrap, cap) == Selected(types, labelOf, wrap, cap)
    decreases |types|
  {
    if cap != 0 {
      assert types != [];
      assert (types + rest)[0] == types[0];
      assert (types + rest)[1..] == types[1..] + rest;
      if IsEmpty(labelOf(types[0])) {
        FullSelectionIgnoresRest(types[1..], rest, labelOf, wrap, cap);
      } else {
        FullSelectionIgnoresRest(types[1..], rest, labelOf, wrap, cap - 1);
      }
    }
  }

  /** The loop looks up labels only as far as it needs: the types it looks
      at already give the whole result, it stops short of the end only when
      every slot is used, and it stops right after the label that used the
      last one, since one lookup earlier a slot was still free. */
  lemma {:induction false} LookupsStopAtLastSlot(types: seq<AccountType>, labelOf: AccountType -> Label,
                                                 wrap: string -> string, cap: nat)
    ensures Selected(types[..Lookups(types, labelOf, cap)], labelOf, wrap, cap) == Selected(types, labelOf, wrap, cap)
    ensures Lookups(types, labelOf, cap) < |types| ==>
              |Selected(types, labelOf, wrap, cap)| == cap &&
              (cap > 0 ==> !IsEmpty(labelOf(types[Lookups(types, labelOf, cap) - 1])))
    ensures cap > 0 && Lookups(types, labelOf, cap) > 0 ==>
              |Selected(types[..Lookups(types, labelOf, cap) - 1], labelOf, wrap, cap)| < cap
    decreases |types|
  {
    var n := Lookups(types, labelOf, cap);
    if types == [] || cap == 0 {
    } else {
      var tail := types[1..];
      var c := if IsEmpty(labelOf(types[0])) then cap else cap - 1;
      LookupsStopAtLastSlot(tail, labelOf, wrap, c);
      var m := Lookups(tail, labelOf, c);
      assert n == 1 + m;
      assert types[..n][0] == types[0];
      assert types[..n][1..] == tail[..m];
      if n < |types| && cap > 0 && m > 0 {
        assert types[n - 1] == tail[m - 1];
      }
      if m > 0 {
        assert types[..n - 1][0] == types[0];
        assert types[..n - 1][1..] == tail[..m - 1];
      } else {
        assert types[..n - 1] == [];
      }
    }
  }

  // ---------------------------------------------------------------------
  // The listening callback

  /** The summary list built as the Java code builds it: a list that starts
      empty and is appended to, a counter of slots left that starts at
      min(3, length) and is decremented on every append, and a skip of every
      empty label. The ghost `lookups` counts the label lookups made. */
  method CollectSummaries(types: Option<seq<AccountType>>, labelOf: AccountType -> Label,
                          wrap: string -> string, defaultSummary: string)
    returns (summaries: seq<string>, ghost lookups: nat)
    ensures summaries == SummaryList(types, labelOf, wrap, defaultSummary)
    ensures lookups == if types.None? || types.value == [] then 0
                       else Lookups(types.value, labelOf, Min(MAX_SHOWN, |types.value|))
  {
    summaries := [];
    lookups := 0;
    if types.None? || |types.value| == 0 {
      summaries := summaries + [defaultSummary];
    } else {
      var ts := types.value;
      var accountToAdd: nat := Min(MAX_SHOWN, |ts|);
      var i := 0;
      while i < |ts| && accountToAdd > 0
        invariant 0 <= i <= |ts|
        invariant accountToAdd <= Min(MAX_SHOWN, |ts|)
        invariant summaries + Selected(ts[i..], labelOf, wrap, accountToAdd)
               == Selected(ts, labelOf, wrap, Min(MAX_SHOWN, |ts|))
        invariant lookups + Lookups(ts[i..], labelOf, accountToAdd)
               == Lookups(ts, labelOf, Min(MAX_SHOWN, |ts|))
        decreases |ts| - i
      {
        assert ts[i..][0] == ts[i];
        assert ts[i..][1..] == ts[i + 1..];
        var text := labelOf(ts[i]);
        lookups := lookups + 1;
        if IsEmpty(text) {
          i := i + 1;
          continue;
        }
        summaries := summaries + [wrap(text.value)];
        accountToAdd := accountToAdd - 1;
        i := i + 1;
      }
    }
  }

  /** The listening callback: while not listening nothing is published;
      when listening, the summary is published once, as the formatted
      summary list. The result is the argument of that one publication,
      or None when there is none. */
  method SetListening(listening: bool, types: Option<seq<AccountType>>, labelOf: AccountType -> Label,
                      wrap: string -> string, format: seq<string> -> string, defaultSummary: string)
    returns (published: Option<string>)
    ensures !listening ==> published == None
    ensures listening ==> published == Some(format(SummaryList(types, labelOf, wrap, defaultSummary)))
  {
    published := None;
    if listening {
      var summaries, _ := CollectSummaries(types, labelOf, wrap, defaultSummary);
      published := Some(format(summaries));
    }
  }
}
