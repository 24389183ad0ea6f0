/**
 What every sequence of PutContact and SetContactStatus keeps (contacts/file_store.go): one entry for
 each ID, no contact lost, owner and pairing, and the cap.
 */
module ContactBooks {
  import opened Transcript
  import opened Contacts

  // Every ID has one entry, in one of the lists.
  ghost predicate Good(book: Book) {
    && UniqueIds(book.active) && UniqueIds(book.inactive)
    && forall a, b :: a in book.active && b in book.inactive ==> a.id != b.id
  }

  predicate In(book: Book, c: Contact) {
    c in book.active || c in book.inactive
  }

  ghost predicate Known(book: Book, id: string) {
    HasId(book.active, id) || HasId(book.inactive, id)
  }

  // ----- The lists -----

  lemma HasIdMeans(items: seq<Contact>, id: string)
    ensures HasId(items, id) <==> !NewId(items, id)
    ensures HasId(items, id) <==> exists c :: c in items && c.id == id
  {
    if HasId(items, id) {
      var i :| 0 <= i < |items| && items[i].id == id;
      assert items[i] in items;
    }
  }

  lemma {:induction false} WithoutElements(items: seq<Contact>, id: string, x: Contact)
    ensures x in Without(items, id) <==> x in items && x.id != id
  {
    if items != [] {
      WithoutElements(items[..|items| - 1], id, x);
      assert items == items[..|items| - 1] + [items[|items| - 1]];
    }
  }

  lemma UniqueWith(items: seq<Contact>, c: Contact)
    requires UniqueIds(items) && NewId(items, c.id)
    ensures UniqueIds(items + [c])
  {
  }

  lemma {:induction false} WithoutUnique(items: seq<Contact>, id: string)
    requires UniqueIds(items)
    ensures UniqueIds(Without(items, id)) && NewId(Without(items, id), id)
  {
    if items != [] {
      var n := |items| - 1;
      WithoutUnique(items[..n], id);
      if items[n].id != id {
        forall x | x in Without(items[..n], id) ensures x.id != items[n].id {
          WithoutElements(items[..n], id, x);
        }
        UniqueWith(Without(items[..n], id), items[n]);
      }
    }
  }

  lemma {:induction false} FindIn(items: seq<Contact>, c: Contact)
    requires UniqueIds(items) && c in items
    ensures Find(items, c.id) == Some(c)
  {
    if items[0] != c {
      assert items == [items[0]] + items[1..];
      FindIn(items[1..], c);
      var i :| 0 <= i < |items| && items[i] == c;
    }
  }

  lemma GoodTogether(book: Book)
    requires Good(book)
    ensures UniqueIds(book.active + book.inactive)
  {
    var all := book.active + book.inactive;
    forall i, j | 0 <= i < j < |all| ensures all[i].id != all[j].id {
      assert i < |book.active| ==> all[i] in book.active;
      assert j >= |book.active| ==> all[j] in book.inactive;
    }
  }

  // ----- One step -----

  lemma AppendInactive(active: seq<Contact>, inactive: seq<Contact>, c: Contact)
    requires Good(Book(active, inactive)) && NewId(active, c.id) && NewId(inactive, c.id)
    ensures Good(Book(active, inactive + [c])) && Good(Book(active + [c], inactive))
  {
    UniqueWith(active, c);
    UniqueWith(inactive, c);
  }

  lemma RemovedGood(book: Book, id: string)
    requires Good(book)
    ensures var less := Book(Without(book.active, id), Without(book.inactive, id));
            && Good(less) && NewId(less.active, id) && NewId(less.inactive, id)
            && forall x :: In(less, x) <==> In(book, x) && x.id != id
  {
    WithoutUnique(book.active, id);
    WithoutUnique(book.inactive, id);
    forall x ensures x in Without(book.active, id) <==> x in book.active && x.id != id {
      WithoutElements(book.active, id, x);
    }
    forall x ensures x in Without(book.inactive, id) <==> x in book.inactive && x.id != id {
      WithoutElements(book.inactive, id, x);
    }
  }

  lemma PlacedGood(book: Book, c: Contact)
    requires Good(book)
    ensures Good(Placed(book, c))
    ensures forall x :: In(Placed(book, c), x) <==> (In(book, x) && x.id != c.id) || x == Merged(book, c)
  {
    RemovedGood(book, c.id);
    AppendInactive(Without(book.active, c.id), Without(book.inactive, c.id), Merged(book, c));
  }

  lemma CutUnique(items: seq<Contact>, n: nat)
    requires UniqueIds(items) && n <= |items|
    ensures UniqueIds(items[..n]) && UniqueIds(items[n..])
    ensures forall a, b :: a in items[..n] && b in items[n..] ==> a.id != b.id
  {
    forall a, b | a in items[..n] && b in items[n..] ensures a.id != b.id {
      var i :| 0 <= i < n && items[..n][i] == a;
      var j :| 0 <= j < |items| - n && items[n..][j] == b;
      assert items[i].id != items[n + j].id;
    }
  }

  lemma UniqueConcat(a: seq<Contact>, b: seq<Contact>)
    requires UniqueIds(a) && UniqueIds(b) && forall x, y :: x in a && y in b ==> x.id != y.id
    ensures UniqueIds(a + b)
  {
    var all := a + b;
    forall i, j | 0 <= i < j < |all| ensures all[i].id != all[j].id {
      assert i < |a| ==> all[i] in a;
      assert j >= |a| ==> all[j] in b;
    }
  }

  lemma SortedElements(items: seq<Contact>)
    ensures forall x :: x in SortByInteraction(items) <==> x in items
  {
    forall x ensures x in SortByInteraction(items) <==> x in items {
      SortElements(items, x);
    }
  }

  lemma CutElements(items: seq<Contact>, n: nat)
    requires n <= |items|
    ensures forall x :: x in items <==> x in items[..n] || x in items[n..]
  {
    assert items == items[..n] + items[n..];
  }

  lemma TrimmedGood(book: Book)
    requires Good(book)
    ensures Good(Trimmed(book)) && forall x :: In(Trimmed(book), x) <==> In(book, x)
  {
    if |book.active| > MAX_ACTIVE {
      var ranked := SortByInteraction(book.active);
      SortedElements(book.active);
      SortUnique(book.active);
      CutUnique(ranked, MAX_ACTIVE);
      CutElements(ranked, MAX_ACTIVE);
      UniqueConcat(book.inactive, ranked[MAX_ACTIVE..]);
    }
  }

  // The active list ends within the cap, and what was moved off it is ranked no more recent than what
  // was kept.
  lemma TrimmedCap(book: Book)
    ensures var after := Trimmed(book);
            && |after.active| <= MAX_ACTIVE
            && book.inactive <= after.inactive
            && forall kept, moved :: kept in after.active && moved in after.inactive[|book.inactive|..] ==>
                 !RankedBefore(moved, kept) && moved.interaction <= kept.interaction
                 && (moved.interaction == kept.interaction ==> !StringLess(moved.id, kept.id))
  {
    if |book.active| > MAX_ACTIVE {
      var ranked := SortByInteraction(book.active);
      var after := Trimmed(book);
      SortRanked(book.active);
      assert after.inactive[|book.inactive|..] == ranked[MAX_ACTIVE..];
      forall kept, moved | kept in after.active && moved in ranked[MAX_ACTIVE..] ensures !RankedBefore(moved, kept) {
        var i :| 0 <= i < MAX_ACTIVE && ranked[..MAX_ACTIVE][i] == kept;
        var j :| 0 <= j < |ranked| - MAX_ACTIVE && ranked[MAX_ACTIVE..][j] == moved;
        assert ranked[i] == kept && ranked[MAX_ACTIVE + j] == moved;
      }
    } else {
      assert book.inactive[|book.inactive|..] == [];
    }
  }

  // PutContact replaces the entry of its contact by the merged one and keeps every other entry as it
  // is, in one list or the other.
  lemma PutKeeps(book: Book, c: Contact)
    requires Good(book)
    ensures Good(Put(book, c)) && |Put(book, c).active| <= MAX_ACTIVE
    ensures forall x :: In(Put(book, c), x) <==> (In(book, x) && x.id != c.id) || x == Merged(book, c)
  {
    PlacedGood(book, c);
    TrimmedGood(Placed(book, c));
    TrimmedCap(Placed(book, c));
  }

  lemma SetStatusKeeps(book: Book, id: string, status: Status)
    requires Good(book)
    ensures Good(SetStatus(book, id, status))
    ensures forall x :: In(SetStatus(book, id, status), x) <==> In(book, x)
  {
    var from, to := if status.Inactive? then book.active else book.inactive, if status.Inactive? then book.inactive else book.active;
    var found := Find(from, id);
    if found.Some? {
      var c := found.value;
      MoveKeeps(from, to, c);
      forall x ensures In(SetStatus(book, id, status), x) <==> In(book, x) {
        assert In(Book(Without(from, c.id), to + [c]), x) <==> In(Book(from, to), x);
      }
    }
  }

  lemma MoveKeeps(from: seq<Contact>, to: seq<Contact>, c: Contact)
    requires Good(Book(from, to)) && c in from
    ensures Good(Book(Without(from, c.id), to + [c]))
    ensures forall x :: In(Book(Without(from, c.id), to + [c]), x) <==> In(Book(from, to), x)
  {
    WithoutUnique(from, c.id);
    UniqueWith(to, c);
    forall x ensures x in Without(from, c.id) <==> x in from && x != c {
      WithoutElements(from, c.id, x);
      if x in from && x.id == c.id {
        FindIn(from, x);
        FindIn(from, c);
      }
    }
  }

  // ----- Every sequence -----

  datatype Operation = PutContact(contact: Contact) | SetContactStatus(id: string, status: Status)

  function Apply(book: Book, op: Operation): Book {
    match op
    case PutContact(c) => Put(book, c)
    case SetContactStatus(id, status) => SetStatus(book, id, status)
  }

  function ApplyAll(book: Book, ops: seq<Operation>): Book {
    if ops == [] then book else Apply(ApplyAll(book, ops[..|ops| - 1]), ops[|ops| - 1])
  }

  // x is what the entry of c has become: the same contact, still of the same owner, and paired if it
  // was.
  predicate Continues(c: Contact, x: Contact) {
    x.id == c.id && x.owner == c.owner && x.legacy == c.legacy && (c.paired ==> x.paired)
  }

  lemma MergedContinues(book: Book, c: Contact, x: Contact)
    requires Good(book) && In(book, x) && x.id == c.id
    ensures Continues(x, Merged(book, c))
  {
    GoodTogether(book);
    FindIn(book.active + book.inactive, x);
    if x in book.active {
      var i :| 0 <= i < |book.active| && book.active[i] == x;
      assert x.paired ==> HasPaired(book.active, c.id);
    } else {
      var i :| 0 <= i < |book.inactive| && book.inactive[i] == x;
      assert x.paired ==> HasPaired(book.inactive, c.id);
    }
  }

  lemma ApplyKeeps(book: Book, op: Operation, x: Contact)
    requires Good(book) && In(book, x)
    ensures Good(Apply(book, op)) && exists y :: In(Apply(book, op), y) && Continues(x, y)
  {
    match op
    case PutContact(c) =>
      PutKeeps(book, c);
      if x.id == c.id {
        MergedContinues(book, c, x);
        assert In(Put(book, c), Merged(book, c));
      } else {
        assert In(Put(book, c), x);
      }
    case SetContactStatus(id, status) =>
      SetStatusKeeps(book, id, status);
      assert In(SetStatus(book, id, status), x);
  }

  lemma ApplyGood(book: Book, op: Operation)
    requires Good(book)
    ensures Good(Apply(book, op))
  {
    match op
    case PutContact(c) => PutKeeps(book, c);
    case SetContactStatus(id, status) => SetStatusKeeps(book, id, status);
  }

  lemma {:induction false} AllGood(book: Book, ops: seq<Operation>)
    requires Good(book)
    ensures Good(ApplyAll(book, ops))
  {
    if ops != [] {
      AllGood(book, ops[..|ops| - 1]);
      ApplyGood(ApplyAll(book, ops[..|ops| - 1]), ops[|ops| - 1]);
    }
  }

  // After any sequence of operations every contact that was there is there, under its ID and once;
  // its owner mark has not changed and its pairing has not been undone.
  lemma {:induction false} NoContactLost(book: Book, ops: seq<Operation>, x: Contact)
    requires Good(book) && In(book, x)
    ensures Good(ApplyAll(book, ops)) && exists y :: In(ApplyAll(book, ops), y) && Continues(x, y)
  {
    AllGood(book, ops);
    if ops == [] {
      assert Continues(x, x);
    } else {
      var before, op := ApplyAll(book, ops[..|ops| - 1]), ops[|ops| - 1];
      NoContactLost(book, ops[..|ops| - 1], x);
      var y :| In(before, y) && Continues(x, y);
      ApplyKeeps(before, op, y);
      var z :| In(ApplyAll(book, ops), z) && Continues(y, z);
      assert Continues(x, z);
    }
  }

  // A contact comes into the book by PutContact only, and without the owner mark.
  lemma NewContactsAreNotOwners(book: Book, op: Operation, y: Contact)
    requires Good(book) && In(Apply(book, op), y) && !Known(book, y.id)
    ensures op.PutContact? && op.contact.id == y.id && !y.owner
  {
    HasIdMeans(book.active, y.id);
    HasIdMeans(book.inactive, y.id);
    match op
    case PutContact(c) =>
      PutKeeps(book, c);
      HasIdMeans(book.active + book.inactive, y.id);
    case SetContactStatus(id, status) =>
      SetStatusKeeps(book, id, status);
  }

  // Where a change of status leaves every contact: the contact goes to the list of its new status as it
  // is, and every other stays where it was.
  lemma SetStatusPlaces(book: Book, id: string, status: Status, x: Contact)
    requires Good(book)
    ensures var after := SetStatus(book, id, status);
            && (status.Inactive? ==>
                  && (x in after.inactive <==> x in book.inactive || (x in book.active && x.id == id))
                  && (x in after.active <==> x in book.active && x.id != id))
            && (status.Active? ==>
                  && (x in after.active <==> x in book.active || (x in book.inactive && x.id == id))
                  && (x in after.inactive <==> x in book.inactive && x.id != id))
  {
    var from := if status.Inactive? then book.active else book.inactive;
    WithoutElements(from, id, x);
    HasIdMeans(from, id);
    var found := Find(from, id);
    if x in from && x.id == id {
      FindIn(from, x);
    }
  }

  // The entry of a contact that is put is that contact, with the interaction and the profile it comes with;
  // only the pairing is kept from either list, and the owner mark and the legacy fields from its entry.
  lemma MergedFrom(book: Book, c: Contact)
    requires Good(book)
    ensures var merged := Merged(book, c);
            && merged.id == c.id && merged.interaction == c.interaction && merged.profile == c.profile
            && (forall x :: In(book, x) && x.id == c.id ==>
                  merged.owner == x.owner && merged.legacy == x.legacy && (merged.paired <==> c.paired || x.paired))
            && (!Known(book, c.id) ==> !merged.owner && merged.legacy == c.legacy && merged.paired == c.paired)
  {
    GoodTogether(book);
    HasIdMeans(book.active, c.id);
    HasIdMeans(book.inactive, c.id);
    HasIdMeans(book.active + book.inactive, c.id);
    forall x | In(book, x) && x.id == c.id
      ensures Find(book.active + book.inactive, c.id) == Some(x)
      ensures HasPaired(book.active, c.id) || HasPaired(book.inactive, c.id) <==> x.paired
    {
      FindIn(book.active + book.inactive, x);
      PairedIs(book, x);
    }
  }

  lemma PairedIs(book: Book, x: Contact)
    requires Good(book) && In(book, x)
    ensures HasPaired(book.active, x.id) || HasPaired(book.inactive, x.id) <==> x.paired
  {
    if i :| 0 <= i < |book.active| && book.active[i] == x {
    } else {
      var i :| 0 <= i < |book.inactive| && book.inactive[i] == x;
    }
  }

  // Only PutContact keeps to the cap: making a contact active adds one whatever the number.
  lemma SetStatusAdds(book: Book, id: string)
    requires Good(book) && HasId(book.inactive, id)
    ensures |SetStatus(book, id, Active).active| == |book.active| + 1
  {
  }

  // ----- Which contacts the cap moves -----

  // How many of the contacts are ranked before x.
  function Ahead(items: seq<Contact>, x: Contact): nat {
    if items == [] then 0 else Ahead(items[1..], x) + if RankedBefore(items[0], x) then 1 else 0
  }

  lemma {:induction false} LessTotal(a: string, b: string)
    requires a != b
    ensures StringLess(a, b) || StringLess(b, a)
  {
    if a != "" && b != "" && a[0] == b[0] {
      assert a == [a[0]] + a[1..] && b == [b[0]] + b[1..];
      LessTotal(a[1..], b[1..]);
    }
  }

  lemma {:induction false} InsertAhead(c: Contact, items: seq<Contact>, x: Contact)
    ensures Ahead(Insert(c, items), x) == Ahead(items, x) + if RankedBefore(c, x) then 1 else 0
  {
    if items != [] && RankedBefore(items[0], c) {
      InsertAhead(c, items[1..], x);
    }
  }

  lemma {:induction false} SortAhead(items: seq<Contact>, x: Contact)
    ensures Ahead(SortByInteraction(items), x) == Ahead(items, x)
  {
    if items != [] {
      SortAhead(items[1..], x);
      InsertAhead(items[0], SortByInteraction(items[1..]), x);
    }
  }

  lemma {:induction false} NoneAhead(items: seq<Contact>, x: Contact)
    requires forall k :: 0 <= k < |items| ==> !RankedBefore(items[k], x)
    ensures Ahead(items, x) == 0
  {
    if items != [] {
      NoneAhead(items[1..], x);
    }
  }

  // In a ranked list a contact has exactly those before it ahead.
  lemma {:induction false} RankedAhead(items: seq<Contact>, j: nat)
    requires Ranked(items) && UniqueIds(items) && j < |items|
    ensures Ahead(items, items[j]) == j
  {
    if j == 0 {
      LessIrreflexive(items[0].id);
      NoneAhead(items, items[0]);
    } else {
      LessTotal(items[0].id, items[j].id);
      RankedAhead(items[1..], j - 1);
    }
  }

  lemma LessIrreflexive(a: string)
    ensures !StringLess(a, a)
  {
    if StringLess(a, a) {
      LessAsymmetric(a, a);
    }
  }

  lemma {:induction false} AheadWithin(items: seq<Contact>, x: Contact)
    requires x in items
    ensures Ahead(items, x) < |items|
  {
    AheadAtMost(items[1..], x);
    if items[0] == x {
      LessIrreflexive(x.id);
    } else {
      assert items == [items[0]] + items[1..];
      AheadWithin(items[1..], x);
    }
  }

  lemma AheadAtMost(items: seq<Contact>, x: Contact)
    ensures Ahead(items, x) <= |items|
  {
  }

  // In a ranked list the cut is at the number of contacts ahead.
  lemma CutAhead(items: seq<Contact>, n: nat, x: Contact)
    requires Ranked(items) && UniqueIds(items) && n <= |items|
    ensures x in items[..n] <==> x in items && Ahead(items, x) < n
    ensures x in items[n..] <==> x in items && Ahead(items, x) >= n
  {
    forall j | 0 <= j < |items| ensures Ahead(items, items[j]) == j {
      RankedAhead(items, j);
    }
    if x in items {
      var j :| 0 <= j < |items| && items[j] == x;
      assert j < n ==> items[..n][j] == x;
      assert j >= n ==> items[n..][j - n] == x;
    }
    CutElements(items, n);
  }

  // The cap keeps exactly the contacts with fewer than so many ahead, and moves the others.
  lemma TrimmedPlaces(book: Book, x: Contact)
    requires UniqueIds(book.active)
    ensures x in Trimmed(book).active <==> x in book.active && Ahead(book.active, x) < MAX_ACTIVE
    ensures x in Trimmed(book).inactive <==> x in book.inactive || (x in book.active && Ahead(book.active, x) >= MAX_ACTIVE)
  {
    if |book.active| > MAX_ACTIVE {
      SortRanked(book.active);
      SortUnique(book.active);
      SortElements(book.active, x);
      SortAhead(book.active, x);
      CutAhead(SortByInteraction(book.active), MAX_ACTIVE, x);
    } else if x in book.active {
      AheadWithin(book.active, x);
    }
  }

  // Where a put leaves every contact. Before the cap the contact itself goes to the inactive list
  // exactly when it was there and is not paired, and every other contact stays in its list. The cap then
  // moves exactly the contacts with too many ahead of them.
  lemma PutPlaces(book: Book, c: Contact, x: Contact)
    requires Good(book)
    ensures var merged, placed, after := Merged(book, c), Placed(book, c).active, Put(book, c);
            var inactive := HasId(book.inactive, c.id) && !merged.paired;
            && (x in placed <==> if x.id == c.id then x == merged && !inactive else x in book.active)
            && (x in after.active <==> x in placed && Ahead(placed, x) < MAX_ACTIVE)
            && (x in after.inactive <==>
                  || (if x.id == c.id then x == merged && inactive else x in book.inactive)
                  || (x in placed && Ahead(placed, x) >= MAX_ACTIVE))
  {
    RemovedGood(book, c.id);
    WithoutElements(book.active, c.id, x);
    WithoutElements(book.inactive, c.id, x);
    PlacedGood(book, c);
    TrimmedPlaces(Placed(book, c), x);
  }
}
