/**
 * How the two client reminder screens (the notifications screen and the
 * bills screen) split the reminders the service returns into an unpaid and a
 * paid group, and which blocks each screen then shows.
 */
module ReminderGroups {
  import opened Wrappers

  /**
   * A reminder as the client receives it. `isPaid` may be missing: the
   * collection's schema does not declare it, so a stored document can come
   * back without it.
   */
  datatype Reminder = Reminder(id: string, task: string, date: string, time: string, isPaid: Option<bool>)

  /** `r.isPaid` is truthy; a missing flag reads as unpaid. */
  predicate IsPaid(r: Reminder) {
    r.isPaid == Some(true)
  }

  /** `reminders.filter(r => r.isPaid)` when `paid`, `reminders.filter(r => !r.isPaid)` otherwise. */
  function Filter(rs: seq<Reminder>, paid: bool): (kept: seq<Reminder>)
    ensures |kept| <= |rs|
  {
    if rs == [] then []
    else (if IsPaid(rs[0]) == paid then [rs[0]] else []) + Filter(rs[1..], paid)
  }

  /** A group holds exactly the reminders whose flag matches it. */
  lemma {:induction false} FilterKeepsExactly(rs: seq<Reminder>, paid: bool)
    ensures forall r :: r in Filter(rs, paid) <==> r in rs && IsPaid(r) == paid
  {
    if rs != [] {
      FilterKeepsExactly(rs[1..], paid);
      assert rs == [rs[0]] + rs[1..];
    }
  }

  function Unpaid(rs: seq<Reminder>): seq<Reminder> {
    Filter(rs, false)
  }

  function Paid(rs: seq<Reminder>): seq<Reminder> {
    Filter(rs, true)
  }

  /** Filtering works piece by piece, so each group keeps the reminders in their order. */
  lemma {:induction false} FilterAppend(a: seq<Reminder>, b: seq<Reminder>, paid: bool)
    ensures Filter(a + b, paid) == Filter(a, paid) + Filter(b, paid)
  {
    if a == [] {
      assert a + b == b;
    } else {
      assert (a + b)[1..] == a[1..] + b;
      FilterAppend(a[1..], b, paid);
    }
  }

  /** Every reminder lands in exactly one group, as often as it occurs. */
  lemma {:induction false} GroupsPartition(rs: seq<Reminder>)
    ensures multiset(Unpaid(rs)) + multiset(Paid(rs)) == multiset(rs)
    ensures |Unpaid(rs)| + |Paid(rs)| == |rs|
  {
    if rs != [] {
      GroupsPartition(rs[1..]);
      assert rs == [rs[0]] + rs[1..];
      if IsPaid(rs[0]) {
        assert Unpaid(rs) == Unpaid(rs[1..]) && Paid(rs) == [rs[0]] + Paid(rs[1..]);
        assert multiset(Paid(rs)) == multiset([rs[0]]) + multiset(Paid(rs[1..]));
      } else {
        assert Unpaid(rs) == [rs[0]] + Unpaid(rs[1..]) && Paid(rs) == Paid(rs[1..]);
        assert multiset(Unpaid(rs)) == multiset([rs[0]]) + multiset(Unpaid(rs[1..]));
      }
      assert multiset(rs) == multiset([rs[0]]) + multiset(rs[1..]);
    }
  }

  /** A reminder card; the "Mark Paid" button is rendered only for an unpaid reminder. */
  datatype Card = Card(reminder: Reminder, markPaidButton: bool)

  function CardFor(r: Reminder): Card {
    Card(r, !IsPaid(r))
  }

  function CardsFor(rs: seq<Reminder>): (cards: seq<Card>)
    ensures |cards| == |rs| && forall i :: 0 <= i < |rs| ==> cards[i] == CardFor(rs[i])
  {
    seq(|rs|, i requires 0 <= i < |rs| => CardFor(rs[i]))
  }

  /** What a screen shows below its title, top to bottom. */
  datatype Block = Heading(text: string) | Note(text: string) | List(cards: seq<Card>) | Spinner

  /** A group's list of cards, or the note shown in its place when the group is empty. */
  function GroupBlock(group: seq<Reminder>, emptyNote: string): seq<Block> {
    if |group| == 0 then [Note(emptyNote)] else [List(CardsFor(group))]
  }

  /** `frontend/screens/notifications.tsx`: the pending list or an empty note, then the paid list if any. */
  function NotificationsView(rs: seq<Reminder>): seq<Block> {
    (if |Unpaid(rs)| == 0 then [Note("You don't have any notifications yet.")]
     else [Heading("Pending"), List(CardsFor(Unpaid(rs)))])
    + (if |Paid(rs)| > 0 then [Heading("Paid"), List(CardsFor(Paid(rs)))] else [])
  }

  /** `frontend/screens/Reminders.js`: a spinner while loading, else both sections, each with its own empty note. */
  function BillsView(rs: seq<Reminder>, loading: bool): seq<Block> {
    if loading then [Spinner]
    else
      [Heading("Upcoming Bills")] + GroupBlock(Unpaid(rs), "No upcoming bills.")
      + [Heading("Paid Bills")] + GroupBlock(Paid(rs), "No paid bills yet.")
  }

  /** The reminders on the cards of a view, top to bottom. */
  function Shown(view: seq<Block>): seq<Reminder> {
    if view == [] then []
    else
      (if view[0].List? then seq(|view[0].cards|, i requires 0 <= i < |view[0].cards| => view[0].cards[i].reminder) else [])
      + Shown(view[1..])
  }

  lemma {:induction false} ShownAppend(a: seq<Block>, b: seq<Block>)
    ensures Shown(a + b) == Shown(a) + Shown(b)
  {
    if a == [] {
      assert a + b == b;
    } else {
      assert (a + b)[1..] == a[1..] + b;
      ShownAppend(a[1..], b);
    }
  }

  lemma ShownList(rs: seq<Reminder>)
    ensures Shown([List(CardsFor(rs))]) == rs
  {
    assert [List(CardsFor(rs))][1..] == [];
  }

  lemma ShownNoCards(b: Block)
    requires !b.List?
    ensures Shown([b]) == []
  {
    assert [b][1..] == [];
  }

  /** Every card's button is there exactly when its reminder is unpaid. */
  predicate ButtonsOnlyOnUnpaid(view: seq<Block>) {
    forall k, i :: 0 <= k < |view| && view[k].List? && 0 <= i < |view[k].cards| ==>
      (view[k].cards[i].markPaidButton <==> !IsPaid(view[k].cards[i].reminder))
  }

  /** The notifications screen shows each reminder exactly once. */
  lemma NotificationsViewShowsEachOnce(rs: seq<Reminder>)
    ensures multiset(Shown(NotificationsView(rs))) == multiset(rs)
  {
    var u, p := Unpaid(rs), Paid(rs);
    var top := if |u| == 0 then [Note("You don't have any notifications yet.")] else [Heading("Pending"), List(CardsFor(u))];
    var bottom := if |p| > 0 then [Heading("Paid"), List(CardsFor(p))] else [];
    assert NotificationsView(rs) == top + bottom;
    ShownAppend(top, bottom);
    if |u| > 0 {
      ShownAppend([Heading("Pending")], [List(CardsFor(u))]);
      ShownNoCards(Heading("Pending"));
      ShownList(u);
    } else {
      ShownNoCards(Note("You don't have any notifications yet."));
    }
    if |p| > 0 {
      ShownAppend([Heading("Paid")], [List(CardsFor(p))]);
      ShownNoCards(Heading("Paid"));
      ShownList(p);
    }
    assert Shown(NotificationsView(rs)) == u + p;
    GroupsPartition(rs);
    assert multiset(u + p) == multiset(u) + multiset(p);
  }

  /**
   * The empty note shows exactly when nothing is unpaid, the paid section
   * exactly when something is paid, and "Mark Paid" only on unpaid reminders.
   */
  lemma NotificationsViewSections(rs: seq<Reminder>)
    ensures var v := NotificationsView(rs);
      && (Note("You don't have any notifications yet.") in v <==> Unpaid(rs) == [])
      && (Heading("Paid") in v <==> Paid(rs) != [])
      && ButtonsOnlyOnUnpaid(v)
  {
    var u, p := Unpaid(rs), Paid(rs);
    var top := if |u| == 0 then [Note("You don't have any notifications yet.")] else [Heading("Pending"), List(CardsFor(u))];
    var bottom := if |p| > 0 then [Heading("Paid"), List(CardsFor(p))] else [];
    assert NotificationsView(rs) == top + bottom;
    ButtonsOfCards(u, Heading("Pending"));
    ButtonsOfCards(p, Heading("Paid"));
    ButtonsAppend(top, bottom);
  }

  /** Stacking two views keeps the buttons on unpaid reminders only. */
  lemma ButtonsAppend(a: seq<Block>, b: seq<Block>)
    requires ButtonsOnlyOnUnpaid(a) && ButtonsOnlyOnUnpaid(b)
    ensures ButtonsOnlyOnUnpaid(a + b)
  {
    forall k, i | 0 <= k < |a + b| && (a + b)[k].List? && 0 <= i < |(a + b)[k].cards|
      ensures (a + b)[k].cards[i].markPaidButton <==> !IsPaid((a + b)[k].cards[i].reminder)
    {
      if k < |a| {
        assert (a + b)[k] == a[k];
      } else {
        assert (a + b)[k] == b[k - |a|];
      }
    }
  }

  /** A card list, under a heading or not, carries buttons on unpaid reminders only. */
  lemma ButtonsOfCards(rs: seq<Reminder>, title: Block)
    requires !title.List?
    ensures ButtonsOnlyOnUnpaid([List(CardsFor(rs))])
    ensures ButtonsOnlyOnUnpaid([title, List(CardsFor(rs))])
  {
  }

  /** A group block shows exactly the group's reminders. */
  lemma ShownGroupBlock(group: seq<Reminder>, emptyNote: string)
    ensures Shown(GroupBlock(group, emptyNote)) == group
  {
    if |group| == 0 {
      ShownNoCards(Note(emptyNote));
    } else {
      ShownList(group);
    }
  }

  /** The bills screen, once loaded, shows each reminder exactly once. */
  lemma BillsViewShowsEachOnce(rs: seq<Reminder>)
    ensures multiset(Shown(BillsView(rs, false))) == multiset(rs)
  {
    var u, p := Unpaid(rs), Paid(rs);
    var a, b := [Heading("Upcoming Bills")], GroupBlock(u, "No upcoming bills.");
    var c, d := [Heading("Paid Bills")], GroupBlock(p, "No paid bills yet.");
    ShownAppend(a + b + c, d);
    ShownAppend(a + b, c);
    ShownAppend(a, b);
    ShownNoCards(Heading("Upcoming Bills"));
    ShownNoCards(Heading("Paid Bills"));
    ShownGroupBlock(u, "No upcoming bills.");
    ShownGroupBlock(p, "No paid bills yet.");
    assert Shown(BillsView(rs, false)) == u + p;
    GroupsPartition(rs);
    assert multiset(u + p) == multiset(u) + multiset(p);
  }

  /**
   * Once loaded, each empty note shows exactly when its group is empty, and
   * "Mark as Paid" only on unpaid reminders.
   */
  lemma BillsViewSections(rs: seq<Reminder>)
    ensures var v := BillsView(rs, false);
      && (Note("No upcoming bills.") in v <==> Unpaid(rs) == [])
      && (Note("No paid bills yet.") in v <==> Paid(rs) == [])
      && ButtonsOnlyOnUnpaid(v)
  {
  }
}
