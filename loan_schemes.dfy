/**
 * The loan schemes page: pick a bank to list its schemes, apply for a scheme,
 * and withdraw an application. The list of applications is mirrored into a
 * stored copy after every change and read back when the page opens.
 */
module LoanSchemes {
  import opened Wrappers
  import opened BankSchemes
  import opened Tables

  /** `bankSchemes[value] || []` over a bank table: the schemes listed for a bank code. */
  function SchemesFor(table: Table, key: string): (r: seq<LoanScheme>)
    ensures (forall i :: 0 <= i < |table| ==> table[i].0 != key) ==> r == []
    ensures (exists i :: 0 <= i < |table| && table[i].0 == key) ==>
      exists i :: 0 <= i < |table| && table[i] == (key, r)
  {
    Find(table, key).GetOr([])
  }

  /**
   * With the bank table, the code of bank `i` lists exactly bank `i`'s two
   * schemes, and a code the table lacks lists none.
   */
  lemma SchemesForTable(key: string)
    ensures forall i :: 0 <= i < |BankCodes| && key == BankCodes[i] ==>
      SchemesFor(Entries, key) == Entries[i].1 && Lookup(key) == Some(Entries[i].1)
    ensures key in BankCodes ==> ListedBank(SchemesFor(Entries, key))
    ensures key !in BankCodes ==> SchemesFor(Entries, key) == []
  {
    TableKeys();
    EveryBankListed();
    forall i | 0 <= i < |BankCodes| && key == BankCodes[i]
      ensures SchemesFor(Entries, key) == Entries[i].1
    {
      FindIndexed(Entries, i);
    }
  }

  /**
   * The bank select's options: each bank code, labelled with the bank name of
   * its first scheme.
   */
  function SelectOptions(table: Table): (options: seq<(string, string)>)
    requires forall i :: 0 <= i < |table| ==> |table[i].1| > 0
    ensures |options| == |table|
    ensures forall i :: 0 <= i < |table| ==> options[i] == (table[i].0, table[i].1[0].bankName)
  {
    if table == [] then [] else [(table[0].0, table[0].1[0].bankName)] + SelectOptions(table[1..])
  }

  /** Each option of the table's select is labelled with the bank name of every scheme it lists. */
  lemma SelectLabelsNameSchemes()
    ensures forall i :: 0 <= i < |Entries| ==> |Entries[i].1| > 0
    ensures |SelectOptions(Entries)| == |BankCodes|
    ensures forall i, j :: 0 <= i < |BankCodes| && 0 <= j < |SchemesFor(Entries, BankCodes[i])| ==>
      SelectOptions(Entries)[i] == (BankCodes[i], SchemesFor(Entries, BankCodes[i])[j].bankName)
  {
    TableKeys();
    EveryBankListed();
    forall i | 0 <= i < |BankCodes|
      ensures SchemesFor(Entries, BankCodes[i]) == Entries[i].1
    {
      SchemesForTable(BankCodes[i]);
    }
  }

  /** The record stored on applying: the scheme with the application time and a "Pending" status. */
  function Application(scheme: LoanScheme, now: string): (a: LoanScheme)
    ensures a.applicationDate == Some(now) && a.status == Some("Pending")
    ensures a.id == scheme.id && a.bankName == scheme.bankName && a.schemeName == scheme.schemeName
    ensures a.interestRateTenths == scheme.interestRateTenths && a.maxAmount == scheme.maxAmount
    ensures a.tenure == scheme.tenure && a.description == scheme.description
  {
    scheme.(applicationDate := Some(now), status := Some("Pending"))
  }

  /** The applications left after withdrawing `id`: every application with that id goes. */
  function WithoutScheme(applied: seq<LoanScheme>, id: string): (r: seq<LoanScheme>)
    ensures forall x :: x in r <==> x in applied && x.id != id
    ensures |r| <= |applied|
    ensures (forall i :: 0 <= i < |applied| ==> applied[i].id != id) ==> r == applied
    decreases |applied|
  {
    if applied == [] then []
    else
      var rest := WithoutScheme(applied[1..], id);
      assert forall x :: x in applied <==> x == applied[0] || x in applied[1..];
      assert forall i :: 1 <= i < |applied| ==> applied[i] == applied[1..][i - 1];
      if applied[0].id == id then rest
      else
        assert applied == [applied[0]] + applied[1..];
        [applied[0]] + rest
  }

  /** The list read back from storage when the page opens: nothing saved means no applications. */
  function Restored(stored: Option<seq<LoanScheme>>): (r: seq<LoanScheme>)
    ensures stored.None? ==> r == []
    ensures stored.Some? ==> r == stored.value
  {
    stored.GetOr([])
  }

  /** Withdrawing keeps the other applications in their order: it distributes over concatenation. */
  lemma {:induction false} WithoutSchemeAppend(a: seq<LoanScheme>, b: seq<LoanScheme>, id: string)
    ensures WithoutScheme(a + b, id) == WithoutScheme(a, id) + WithoutScheme(b, id)
    decreases |a|
  {
    if a == [] {
      assert a + b == b;
    } else {
      assert (a + b)[1..] == a[1..] + b;
      WithoutSchemeAppend(a[1..], b, id);
    }
  }

  /** Applying twice for one scheme is not deduplicated: both applications are kept. */
  lemma {:induction false} ApplyTwiceKeepsBoth(applied: seq<LoanScheme>, scheme: LoanScheme, t1: string, t2: string)
    ensures var after := applied + [Application(scheme, t1)] + [Application(scheme, t2)];
      && |after| == |applied| + 2
      && after[|applied|].id == after[|applied| + 1].id == scheme.id
  {
  }

  /** Withdrawing a scheme removes every application made for it, however many times it was applied for. */
  lemma {:induction false} WithdrawUndoesApplications(applied: seq<LoanScheme>, scheme: LoanScheme, t1: string, t2: string)
    ensures WithoutScheme(applied + [Application(scheme, t1), Application(scheme, t2)], scheme.id)
         == WithoutScheme(applied, scheme.id)
  {
    var extra := [Application(scheme, t1), Application(scheme, t2)];
    WithoutSchemeAppend(applied, extra, scheme.id);
    assert extra[1..][1..] == [];
    assert WithoutScheme(extra, scheme.id) == [];
    assert WithoutScheme(applied, scheme.id) + [] == WithoutScheme(applied, scheme.id);
  }

  /** The toast `applyForScheme` raises: a success message as its title and no description. */
  const AppliedToast := Toast("Loan application submitted successfully!", "", false)

  /** The toast `deleteAppliedScheme` raises, whether or not an application had that id. */
  const RemovedToast := Toast("Application removed successfully!", "", false)

  /** The loan schemes page and the stored copy of its applications. */
  class LoanSchemesPage {
    /** The bank table the page reads. */
    const table: Table
    var selectedBank: string
    var schemes: seq<LoanScheme>
    var appliedSchemes: seq<LoanScheme>
    /** The "appliedSchemes" entry of local storage; `None` when nothing was ever saved. */
    var stored: Option<seq<LoanScheme>>

    /** Reopening the page would show exactly the applications the page holds now. */
    ghost predicate Valid()
      reads this
    {
      Restored(stored) == appliedSchemes
    }

    /** Opening the page: no bank selected, no schemes listed, applications read back from storage. */
    constructor (saved: Option<seq<LoanScheme>>)
      ensures Valid()
      ensures table == Entries
      ensures selectedBank == "" && schemes == []
      ensures appliedSchemes == Restored(saved) && stored == saved
    {
      table := Entries;
      selectedBank := "";
      schemes := [];
      appliedSchemes := Restored(saved);
      stored := saved;
    }

    /** `handleBankChange`: select the bank and list its schemes. */
    method HandleBankChange(value: string)
      requires Valid()
      modifies this
      ensures Valid()
      ensures selectedBank == value
      ensures schemes == SchemesFor(table, value)
      ensures appliedSchemes == old(appliedSchemes) && stored == old(stored)
    {
      selectedBank := value;
      schemes := SchemesFor(table, value);
    }

    /** `applyForScheme`: append one pending application stamped `now`, and store the new list. */
    method ApplyForScheme(scheme: LoanScheme, now: string) returns (toast: Toast)
      requires Valid()
      modifies this
      ensures Valid()
      ensures toast == AppliedToast
      ensures appliedSchemes == old(appliedSchemes) + [Application(scheme, now)]
      ensures stored == Some(appliedSchemes)
      ensures selectedBank == old(selectedBank) && schemes == old(schemes)
    {
      var updated := appliedSchemes + [Application(scheme, now)];
      appliedSchemes := updated;
      stored := Some(updated);
      toast := AppliedToast;
    }

    /** `deleteAppliedScheme`: drop every application with that id, and store the new list. */
    method DeleteAppliedScheme(schemeId: string) returns (toast: Toast)
      requires Valid()
      modifies this
      ensures Valid()
      ensures toast == RemovedToast
      ensures appliedSchemes == WithoutScheme(old(appliedSchemes), schemeId)
      ensures stored == Some(appliedSchemes)
      ensures selectedBank == old(selectedBank) && schemes == old(schemes)
    {
      var updated := WithoutScheme(appliedSchemes, schemeId);
      appliedSchemes := updated;
      stored := Some(updated);
      toast := RemovedToast;
    }
  }
}
