/** The expense records of the tracker and the pure list transformations its
    handlers hand to `setExpenses`: the spread-append of an add, the `map` of
    a saved edit, the `filter` of a delete, the `find` of a started edit and
    the `reduce` that gives the total. */
module ExpenseList {

  datatype Option<T> = None | Some(value: T)

  /** A calendar day, kept as its ISO "YYYY-MM-DD" text: `new Date(s)` wraps
      the text and `toISOString().slice(0, 10)` unwraps it. */
  datatype Day = Day(iso: string)

  datatype Expense = Expense(id: int, name: string, amount: real, date: Day)

  /** The form's draft: the raw text of the three inputs, before parsing. */
  datatype Draft = Draft(name: string, amount: string, date: string)

  /** The four example records used when storage holds nothing. */
  function Seed(): seq<Expense>
  {
    [ Expense(1, "Groceries", 250.0, Day("2024-05-15")),
      Expense(2, "Rent", 250.0, Day("2024-06-01")),
      Expense(3, "Utilities", 250.0, Day("2024-06-05")),
      Expense(4, "Dining Out", 250.0, Day("2024-06-10")) ]
  }

  // ---------------------------------------------------------------- total

  /** The running total, folded from the left like `reduce((t, e) => t + e.amount, 0)`. */
  function Total(xs: seq<Expense>): real
  {
    if xs == [] then 0.0 else Total(xs[..|xs| - 1]) + xs[|xs| - 1].amount
  }

  lemma {:induction false} TotalConcat(xs: seq<Expense>, ys: seq<Expense>)
    ensures Total(xs + ys) == Total(xs) + Total(ys)
    decreases |ys|
  {
    if ys == [] {
      assert xs + ys == xs;
    } else {
      var zs := xs + ys;
      assert zs[..|zs| - 1] == xs + ys[..|ys| - 1];
      TotalConcat(xs, ys[..|ys| - 1]);
    }
  }

  /** The total read from the front, the shape the other recursions use. */
  lemma TotalCons(x: Expense, xs: seq<Expense>)
    ensures Total([x] + xs) == x.amount + Total(xs)
  {
    TotalConcat([x], xs);
    assert Total([x]) == Total([]) + x.amount;
  }

  lemma SeedTotal()
    ensures |Seed()| == 4 && Total(Seed()) == 1000.0
  {
    var s := Seed();
    assert s[..1][..0] == [];
    assert s[..2][..1] == s[..1];
    assert s[..3][..2] == s[..2];
    assert s[..4][..3] == s[..3];
    assert Total(s[..1]) == 250.0;
    assert Total(s[..2]) == 500.0;
    assert Total(s[..3]) == 750.0;
    assert s[..4] == s;
  }

  // ---------------------------------------------------------------- add

  /** The record an add appends: its id is the list's length plus one, its
      name is the draft's as typed, its amount and day are parsed from the draft. */
  function NewRecord(xs: seq<Expense>, d: Draft, parseAmount: string -> real): Expense
  {
    Expense(|xs| + 1, d.name, parseAmount(d.amount), Day(d.date))
  }

  /** The list after an accepted add. */
  function Added(xs: seq<Expense>, d: Draft, parseAmount: string -> real): seq<Expense>
  {
    xs + [NewRecord(xs, d, parseAmount)]
  }

  lemma AddedShape(xs: seq<Expense>, d: Draft, parseAmount: string -> real)
    ensures |Added(xs, d, parseAmount)| == |xs| + 1
    ensures Added(xs, d, parseAmount)[..|xs|] == xs
    ensures Added(xs, d, parseAmount)[|xs|]
         == Expense(|xs| + 1, d.name, parseAmount(d.amount), Day(d.date))
  {
  }

  lemma AddedTotal(xs: seq<Expense>, d: Draft, parseAmount: string -> real)
    ensures Total(Added(xs, d, parseAmount)) == Total(xs) + parseAmount(d.amount)
  {
    assert Added(xs, d, parseAmount)[..|xs|] == xs;
  }

  // ---------------------------------------------------------------- edit

  /** `{ ...expense, ...newExpense, amount: parseFloat(..), date: new Date(..) }`:
      the draft overrides name, amount and day; the id is kept. */
  function Merged(e: Expense, d: Draft, parseAmount: string -> real): Expense
  {
    e.(name := d.name, amount := parseAmount(d.amount), date := Day(d.date))
  }

  /** The list after a saved edit: every record whose id equals the edited id
      is merged with the draft, every other record is left as it is. A `None`
      target (no edit in progress) matches no record. */
  function Edited(xs: seq<Expense>, target: Option<int>, d: Draft, parseAmount: string -> real): (r: seq<Expense>)
    ensures |r| == |xs|
    ensures forall i :: 0 <= i < |xs| ==>
      r[i] == if target == Some(xs[i].id) then Merged(xs[i], d, parseAmount) else xs[i]
    ensures forall i :: 0 <= i < |xs| ==> r[i].id == xs[i].id
  {
    if xs == [] then []
    else
      [if target == Some(xs[0].id) then Merged(xs[0], d, parseAmount) else xs[0]]
      + Edited(xs[1..], target, d, parseAmount)
  }

  /** Saving with no edit in progress, or for an id no record has, changes nothing. */
  lemma EditedAbsent(xs: seq<Expense>, target: Option<int>, d: Draft, parseAmount: string -> real)
    requires target == None || forall i :: 0 <= i < |xs| ==> xs[i].id != target.value
    ensures Edited(xs, target, d, parseAmount) == xs
  {
    var r := Edited(xs, target, d, parseAmount);
    assert forall i :: 0 <= i < |xs| ==> r[i] == xs[i];
  }

  /** `a` counted `n` times: the product `n * a`, written as a sum so that
      the total lemmas below stay within linear arithmetic. */
  function Repeated(n: nat, a: real): real
  {
    if n == 0 then 0.0 else Repeated(n - 1, a) + a
  }

  lemma {:induction false} RepeatedIsProduct(n: nat, a: real)
    ensures Repeated(n, a) == (n as real) * a
  {
    if n > 0 {
      RepeatedIsProduct(n - 1, a);
      assert ((n - 1) as real) * a + a == (n as real) * a;
    }
  }

  /** The total after an edit: the matching records' amounts are replaced by
      the draft's amount, counted once per matching record. */
  lemma {:induction false} EditedTotal(xs: seq<Expense>, id: int, d: Draft, parseAmount: string -> real)
    ensures Total(Edited(xs, Some(id), d, parseAmount))
         == Total(xs) - Total(Matching(xs, id)) + Repeated(|Matching(xs, id)|, parseAmount(d.amount))
    decreases |xs|
  {
    if xs != [] {
      var rest := xs[1..];
      var head := if xs[0].id == id then Merged(xs[0], d, parseAmount) else xs[0];
      var m := Matching(rest, id);
      assert xs == [xs[0]] + rest;
      assert Edited(xs, Some(id), d, parseAmount) == [head] + Edited(rest, Some(id), d, parseAmount);
      EditedTotal(rest, id, d, parseAmount);
      TotalCons(head, Edited(rest, Some(id), d, parseAmount));
      TotalCons(xs[0], rest);
      if xs[0].id == id {
        assert Matching(xs, id) == [xs[0]] + m;
        TotalCons(xs[0], m);
      } else {
        assert Matching(xs, id) == m;
      }
    }
  }

  // ---------------------------------------------------------------- delete

  /** The list after a delete: exactly the records whose id differs from the
      target, in their original order. */
  function Removed(xs: seq<Expense>, id: int): (r: seq<Expense>)
    ensures |r| <= |xs|
    ensures forall i :: 0 <= i < |r| ==> r[i].id != id
  {
    if xs == [] then []
    else if xs[0].id == id then Removed(xs[1..], id)
    else [xs[0]] + Removed(xs[1..], id)
  }

  /** The records a delete of `id` takes away, in their original order. */
  function Matching(xs: seq<Expense>, id: int): (r: seq<Expense>)
    ensures |r| <= |xs|
    ensures forall i :: 0 <= i < |r| ==> r[i].id == id
  {
    if xs == [] then []
    else if xs[0].id == id then [xs[0]] + Matching(xs[1..], id)
    else Matching(xs[1..], id)
  }

  /** A record survives a delete exactly when its id differs from the target:
      no record with the target id remains, and no other record is lost. */
  lemma {:induction false} RemovedMembers(xs: seq<Expense>, id: int, e: Expense)
    ensures e in Removed(xs, id) <==> e in xs && e.id != id
    ensures e in Matching(xs, id) <==> e in xs && e.id == id
    decreases |xs|
  {
    if xs != [] {
      RemovedMembers(xs[1..], id, e);
      assert xs == [xs[0]] + xs[1..];
    }
  }

  /** A delete is a filter: it distributes over concatenation and keeps or
      drops a single record by its id alone. Together these fix the order. */
  lemma {:induction false} RemovedConcat(xs: seq<Expense>, ys: seq<Expense>, id: int)
    ensures Removed(xs + ys, id) == Removed(xs, id) + Removed(ys, id)
    decreases |xs|
  {
    if xs == [] {
      assert xs + ys == ys;
    } else {
      assert (xs + ys)[1..] == xs[1..] + ys;
      RemovedConcat(xs[1..], ys, id);
    }
  }

  lemma RemovedSingle(x: Expense, id: int)
    ensures Removed([x], id) == if x.id == id then [] else [x]
  {
    assert [x][1..] == [];
  }

  /** Deleting an id no record has changes nothing. */
  lemma {:induction false} RemovedAbsent(xs: seq<Expense>, id: int)
    requires forall i :: 0 <= i < |xs| ==> xs[i].id != id
    ensures Removed(xs, id) == xs
    decreases |xs|
  {
    if xs != [] {
      RemovedAbsent(xs[1..], id);
      assert xs == [xs[0]] + xs[1..];
    }
  }

  /** What a delete keeps and what it takes away partition the list: the
      counts add up and the new total is the old total minus the amounts removed. */
  lemma {:induction false} RemovedPartition(xs: seq<Expense>, id: int)
    ensures |Removed(xs, id)| + |Matching(xs, id)| == |xs|
    ensures Total(Removed(xs, id)) == Total(xs) - Total(Matching(xs, id))
    decreases |xs|
  {
    if xs != [] {
      RemovedPartition(xs[1..], id);
      assert xs == [xs[0]] + xs[1..];
      TotalCons(xs[0], xs[1..]);
      if xs[0].id == id {
        TotalCons(xs[0], Matching(xs[1..], id));
      } else {
        TotalCons(xs[0], Removed(xs[1..], id));
      }
    }
  }

  // ---------------------------------------------------------------- find

  /** The position `find` stops at: the first record with the id, if any. */
  function FindIndex(xs: seq<Expense>, id: int): (r: Option<nat>)
    ensures r.Some? ==> r.value < |xs| && xs[r.value].id == id
    ensures r.Some? ==> forall j :: 0 <= j < r.value ==> xs[j].id != id
    ensures r.None? <==> forall j :: 0 <= j < |xs| ==> xs[j].id != id
  {
    if xs == [] then None
    else if xs[0].id == id then Some(0)
    else match FindIndex(xs[1..], id)
      case None => None
      case Some(k) => Some(k + 1)
  }

  /** The draft a started edit loads from a record: its name, its amount
      turned back into text by `formatAmount`, its day as ISO text. */
  function DraftOf(e: Expense, formatAmount: real -> string): Draft
  {
    Draft(e.name, formatAmount(e.amount), e.date.iso)
  }

  /** Starting an edit and saving it untouched gives the list back, provided
      ids are unique and the amount survives its trip through text. */
  lemma EditRoundTrip(xs: seq<Expense>, i: nat, formatAmount: real -> string, parseAmount: string -> real)
    requires i < |xs| && UniqueIds(xs)
    requires parseAmount(formatAmount(xs[i].amount)) == xs[i].amount
    ensures Edited(xs, Some(xs[i].id), DraftOf(xs[i], formatAmount), parseAmount) == xs
  {
    var r := Edited(xs, Some(xs[i].id), DraftOf(xs[i], formatAmount), parseAmount);
    forall j | 0 <= j < |xs| ensures r[j] == xs[j] {
      if j != i {
        assert xs[j].id != xs[i].id by {
          if j < i { assert xs[j].id != xs[i].id; } else { assert xs[i].id != xs[j].id; }
        }
      }
    }
  }

  // ---------------------------------------------------------------- ids

  /** Every record's id is its one-based position. */
  ghost predicate IdsAreIndices(xs: seq<Expense>)
  {
    forall i :: 0 <= i < |xs| ==> xs[i].id == i + 1
  }

  ghost predicate UniqueIds(xs: seq<Expense>)
  {
    forall i, j :: 0 <= i < j < |xs| ==> xs[i].id != xs[j].id
  }

  lemma IndicesAreUnique(xs: seq<Expense>)
    requires IdsAreIndices(xs)
    ensures UniqueIds(xs)
  {
  }

  /** One accepted handler call, as it reaches the list. */
  datatype Change = Add(draft: Draft) | Edit(target: Option<int>, draft: Draft) | Delete(id: int)

  function Apply(xs: seq<Expense>, c: Change, parseAmount: string -> real): seq<Expense>
  {
    match c
    case Add(d) => Added(xs, d, parseAmount)
    case Edit(t, d) => Edited(xs, t, d, parseAmount)
    case Delete(id) => Removed(xs, id)
  }

  function ApplyAll(xs: seq<Expense>, cs: seq<Change>, parseAmount: string -> real): seq<Expense>
    decreases |cs|
  {
    if cs == [] then xs else ApplyAll(Apply(xs, cs[0], parseAmount), cs[1..], parseAmount)
  }

  /** As long as nothing is deleted, ids stay exactly 1..n and so are unique. */
  lemma {:induction false} NoDeleteKeepsIds(xs: seq<Expense>, cs: seq<Change>, parseAmount: string -> real)
    requires IdsAreIndices(xs)
    requires forall k :: 0 <= k < |cs| ==> !cs[k].Delete?
    ensures IdsAreIndices(ApplyAll(xs, cs, parseAmount))
    ensures UniqueIds(ApplyAll(xs, cs, parseAmount))
    decreases |cs|
  {
    if cs != [] {
      var ys := Apply(xs, cs[0], parseAmount);
      assert IdsAreIndices(ys) by {
        if cs[0].Add? {
          assert ys == xs + [NewRecord(xs, cs[0].draft, parseAmount)];
        }
      }
      NoDeleteKeepsIds(ys, cs[1..], parseAmount);
    } else {
      IndicesAreUnique(xs);
    }
  }

  /** Starting from the seed with only adds and edits, ids are 1..n. */
  lemma SeedWithoutDeletes(cs: seq<Change>, parseAmount: string -> real)
    requires forall k :: 0 <= k < |cs| ==> !cs[k].Delete?
    ensures IdsAreIndices(ApplyAll(Seed(), cs, parseAmount))
    ensures UniqueIds(ApplyAll(Seed(), cs, parseAmount))
  {
    NoDeleteKeepsIds(Seed(), cs, parseAmount);
  }

  lemma ApplyTwo(xs: seq<Expense>, c1: Change, c2: Change, parseAmount: string -> real)
    ensures ApplyAll(xs, [c1, c2], parseAmount) == Apply(Apply(xs, c1, parseAmount), c2, parseAmount)
  {
    var cs := [c1, c2];
    var ys := Apply(xs, c1, parseAmount);
    assert cs[1..] == [c2];
    assert [c2][1..] == [];
    assert ApplyAll(xs, cs, parseAmount) == ApplyAll(ys, [c2], parseAmount);
    assert ApplyAll(ys, [c2], parseAmount) == ApplyAll(Apply(ys, c2, parseAmount), [], parseAmount);
  }

  /** Deleting id 2 from the seed removes "Rent" and keeps the other three in order. */
  lemma RentRemoved()
    ensures var s := Seed(); Removed(s, 2) == [s[0], s[2], s[3]]
  {
    var s := Seed();
    assert s == [s[0]] + ([s[1]] + [s[2], s[3]]);
    RemovedConcat([s[0]], [s[1]] + [s[2], s[3]], 2);
    RemovedConcat([s[1]], [s[2], s[3]], 2);
    RemovedAbsent([s[2], s[3]], 2);
    RemovedSingle(s[0], 2);
    RemovedSingle(s[1], 2);
  }

  /** Deleting id 2 from the seed and then adding gives the new record id 4,
      the id "Dining Out" still holds. */
  lemma DeleteThenAddReusesId(d: Draft, parseAmount: string -> real)
    ensures var s := Seed();
      ApplyAll(s, [Delete(2), Add(d)], parseAmount)
      == [s[0], s[2], s[3], Expense(4, d.name, parseAmount(d.amount), Day(d.date))]
    ensures var xs := ApplyAll(Seed(), [Delete(2), Add(d)], parseAmount);
      xs[2].id == 4 && xs[2].name == "Dining Out" && xs[3].id == 4 && !UniqueIds(xs)
  {
    RentRemoved();
    ApplyTwo(Seed(), Delete(2), Add(d), parseAmount);
  }

  /** After that collision, editing the new record loads the first record with
      id 4 into the draft, and saving overwrites both records with id 4. */
  lemma CollidingEditOverwritesBoth(d: Draft, e: Draft, parseAmount: string -> real)
    ensures var xs := ApplyAll(Seed(), [Delete(2), Add(d)], parseAmount);
      && |xs| == 4
      && FindIndex(xs, 4) == Some(2)
      && var ys := Edited(xs, Some(4), e, parseAmount);
         ys[2] == Merged(xs[2], e, parseAmount) && ys[3] == Merged(xs[3], e, parseAmount)
  {
    DeleteThenAddReusesId(d, parseAmount);
    var xs := ApplyAll(Seed(), [Delete(2), Add(d)], parseAmount);
    assert xs[0].id == 1 && xs[1].id == 3;
  }

  lemma {:induction false} MatchingAbsent(xs: seq<Expense>, id: int)
    requires forall i :: 0 <= i < |xs| ==> xs[i].id != id
    ensures Matching(xs, id) == []
    decreases |xs|
  {
    if xs != [] {
      MatchingAbsent(xs[1..], id);
    }
  }

  /** A sample session: add 4.5, edit it to 5.0, delete id 2. */
  lemma SampleSession(parseAmount: string -> real)
    requires parseAmount("4.5") == 4.5 && parseAmount("5.0") == 5.0
    ensures var s1 := Added(Seed(), Draft("Coffee", "4.5", "2024-07-01"), parseAmount);
      var s2 := Edited(s1, Some(5), Draft("Coffee", "5.0", "2024-07-01"), parseAmount);
      var s3 := Removed(s2, 2);
      && |s1| == 5 && s1[4].id == 5 && Total(s1) == 1004.5
      && Total(s2) == 1005.0
      && |s3| == 4 && Total(s3) == 755.0
  {
    var d1 := Draft("Coffee", "4.5", "2024-07-01");
    var d2 := Draft("Coffee", "5.0", "2024-07-01");
    var s1 := Added(Seed(), d1, parseAmount);
    SeedTotal();
    AddedTotal(Seed(), d1, parseAmount);
    var s2 := Edited(s1, Some(5), d2, parseAmount);
    assert s2 == s1[..4] + [Merged(s1[4], d2, parseAmount)];
    TotalConcat(s1[..4], [Merged(s1[4], d2, parseAmount)]);
    assert s1[..4] == Seed();
    assert Total([Merged(s1[4], d2, parseAmount)]) == 5.0 by {
      TotalCons(Merged(s1[4], d2, parseAmount), []);
    }
    RemovedPartition(s2, 2);
    assert s2[1..][1..] == s2[2..];
    MatchingAbsent(s2[2..], 2);
    assert Matching(s2, 2) == [s2[1]];
    TotalCons(s2[1], []);
  }
}
