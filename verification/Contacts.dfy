/**
 The active and inactive contact lists (contacts/file_store.go): PutContact, SetContactStatus and
 the cap on active contacts. Stored contact IDs are trimmed and not empty.
 */
module Contacts {
  import opened Text
  import opened Transcript

  // interaction is the time of the last interaction, 0 when there was none.
  datatype Contact = Contact(id: string, paired: bool, owner: bool, legacy: string, interaction: nat, profile: string)

  datatype Status = Active | Inactive

  datatype Book = Book(active: seq<Contact>, inactive: seq<Contact>)

  const MAX_ACTIVE := 150

  // ----- Look-ups -----

  function Without(items: seq<Contact>, id: string): seq<Contact> {
    if items == [] then []
    else
      var last := items[|items| - 1];
      Without(items[..|items| - 1], id) + if last.id == id then [] else [last]
  }

  predicate HasId(items: seq<Contact>, id: string) {
    exists i :: 0 <= i < |items| && items[i].id == id
  }

  predicate HasPaired(items: seq<Contact>, id: string) {
    exists i :: 0 <= i < |items| && items[i].id == id && items[i].paired
  }

  // The first contact with the ID.
  function Find(items: seq<Contact>, id: string): (found: Option<Contact>)
    ensures found.Some? <==> HasId(items, id)
    ensures found.Some? ==> found.value in items && found.value.id == id
  {
    if items == [] then None
    else if items[0].id == id then Some(items[0])
    else
      var found := Find(items[1..], id);
      assert HasId(items, id) ==> HasId(items[1..], id) by {
        if i :| 0 <= i < |items| && items[i].id == id {
          assert items[1..][i - 1].id == id;
        }
      }
      found
  }

  // ----- Ranking -----

  predicate StringLess(a: string, b: string) {
    b != "" && (a == "" || a[0] < b[0] || (a[0] == b[0] && StringLess(a[1..], b[1..])))
  }

  // a comes first where they differ, or is a beginning of b.
  ghost predicate DiffersFirst(a: string, b: string, k: nat) {
    k <= |a| && k < |b| && a[..k] == b[..k] && (k == |a| || a[k] < b[k])
  }

  lemma BeginAlike(a: string, b: string, k: nat)
    requires DiffersFirst(a, b, k)
    ensures k > 0 ==> a != "" && b != "" && a[0] == b[0]
  {
    if k > 0 {
      assert a[..k][0] == b[..k][0];
    }
  }

  // The order of IDs is that of their first difference.
  lemma {:induction false} LessMeans(a: string, b: string)
    ensures StringLess(a, b) <==> exists k: nat :: DiffersFirst(a, b, k)
  {
    if a == "" || b == "" || a[0] != b[0] {
      if k: nat :| DiffersFirst(a, b, k) {
        BeginAlike(a, b, k);
      }
      assert b != "" && (a == "" || a[0] < b[0]) ==> DiffersFirst(a, b, 0);
    } else {
      LessMeans(a[1..], b[1..]);
      if k: nat :| DiffersFirst(a[1..], b[1..], k) {
        assert a[..k + 1] == [a[0]] + a[1..][..k] && b[..k + 1] == [b[0]] + b[1..][..k];
        assert DiffersFirst(a, b, k + 1);
      }
      if k: nat :| DiffersFirst(a, b, k) {
        assert k > 0;
        assert a[1..][..k - 1] == a[..k][1..] && b[1..][..k - 1] == b[..k][1..];
        assert DiffersFirst(a[1..], b[1..], k - 1);
      }
    }
  }

  // More recent contacts come first, and then the smaller ID.
  predicate RankedBefore(a: Contact, b: Contact) {
    a.interaction > b.interaction || (a.interaction == b.interaction && StringLess(a.id, b.id))
  }

  predicate Ranked(items: seq<Contact>) {
    forall i, j :: 0 <= i < j < |items| ==> !RankedBefore(items[j], items[i])
  }

  predicate UniqueIds(items: seq<Contact>) {
    forall i, j :: 0 <= i < j < |items| ==> items[i].id != items[j].id
  }

  lemma {:induction false} NotLessTransitive(a: string, b: string, c: string)
    requires !StringLess(a, b) && !StringLess(b, c)
    ensures !StringLess(a, c)
  {
    if a != "" && b != "" && c != "" && a[0] == b[0] && b[0] == c[0] {
      NotLessTransitive(a[1..], b[1..], c[1..]);
    }
  }

  lemma {:induction false} LessAsymmetric(a: string, b: string)
    requires StringLess(a, b)
    ensures !StringLess(b, a)
  {
    if a != "" && a[0] == b[0] {
      LessAsymmetric(a[1..], b[1..]);
    }
  }

  lemma NotBeforeTransitive(a: Contact, b: Contact, c: Contact)
    requires !RankedBefore(a, b) && !RankedBefore(b, c)
    ensures !RankedBefore(a, c)
  {
    if a.interaction == b.interaction == c.interaction {
      NotLessTransitive(a.id, b.id, c.id);
    }
  }

  function Insert(c: Contact, items: seq<Contact>): (r: seq<Contact>)
    ensures |r| == |items| + 1
  {
    if items != [] && RankedBefore(items[0], c) then [items[0]] + Insert(c, items[1..]) else [c] + items
  }

  // The library's sort; IDs are distinct, so the order is determined.
  function SortByInteraction(items: seq<Contact>): (r: seq<Contact>)
    ensures |r| == |items|
  {
    if items == [] then [] else Insert(items[0], SortByInteraction(items[1..]))
  }

  lemma {:induction false} InsertElements(c: Contact, items: seq<Contact>, x: Contact)
    ensures x in Insert(c, items) <==> x == c || x in items
  {
    if items != [] {
      assert items == [items[0]] + items[1..];
      InsertElements(c, items[1..], x);
    }
  }

  lemma {:induction false} SortElements(items: seq<Contact>, x: Contact)
    ensures x in SortByInteraction(items) <==> x in items
  {
    if items != [] {
      assert items == [items[0]] + items[1..];
      SortElements(items[1..], x);
      InsertElements(items[0], SortByInteraction(items[1..]), x);
    }
  }

  lemma {:induction false} InsertRanked(c: Contact, items: seq<Contact>)
    requires Ranked(items)
    ensures Ranked(Insert(c, items))
  {
    if items != [] && RankedBefore(items[0], c) {
      InsertRanked(c, items[1..]);
      var rest := Insert(c, items[1..]);
      forall j | 0 <= j < |rest| ensures !RankedBefore(rest[j], items[0]) {
        InsertElements(c, items[1..], rest[j]);
        if rest[j] == c {
          BeforeAsymmetric(items[0], c);
        } else {
          var k :| 0 <= k < |items[1..]| && items[1..][k] == rest[j];
          assert items[k + 1] == rest[j];
        }
      }
    } else if items != [] {
      forall j | 0 <= j < |items| ensures !RankedBefore(items[j], c) {
        if j > 0 {
          NotBeforeTransitive(items[j], items[0], c);
        }
      }
    }
  }

  lemma BeforeAsymmetric(a: Contact, b: Contact)
    requires RankedBefore(a, b)
    ensures !RankedBefore(b, a)
  {
    if a.interaction == b.interaction {
      LessAsymmetric(a.id, b.id);
    }
  }

  lemma {:induction false} SortRanked(items: seq<Contact>)
    ensures Ranked(SortByInteraction(items))
  {
    if items != [] {
      SortRanked(items[1..]);
      InsertRanked(items[0], SortByInteraction(items[1..]));
    }
  }

  predicate NewId(items: seq<Contact>, id: string) {
    forall x :: x in items ==> x.id != id
  }

  lemma {:induction false} InsertUnique(c: Contact, items: seq<Contact>)
    requires UniqueIds(items) && NewId(items, c.id)
    ensures UniqueIds(Insert(c, items))
  {
    if items != [] && RankedBefore(items[0], c) {
      InsertUnique(c, items[1..]);
      var rest := Insert(c, items[1..]);
      forall j | 0 <= j < |rest| ensures rest[j].id != items[0].id {
        InsertElements(c, items[1..], rest[j]);
      }
    }
  }

  lemma {:induction false} SortUnique(items: seq<Contact>)
    requires UniqueIds(items)
    ensures UniqueIds(SortByInteraction(items))
  {
    if items != [] {
      SortUnique(items[1..]);
      forall x | x in SortByInteraction(items[1..]) ensures x.id != items[0].id {
        SortElements(items[1..], x);
      }
      InsertUnique(items[0], SortByInteraction(items[1..]));
    }
  }

  // ----- The operations -----

  // What is stored for a contact seen in a chat: the owner mark and the legacy profile stay as they
  // are, and a paired contact stays paired.
  function Merged(book: Book, c: Contact): Contact {
    var stored := Find(book.active + book.inactive, c.id);
    c.(paired := c.paired || HasPaired(book.active, c.id) || HasPaired(book.inactive, c.id),
       owner := stored.Some? && stored.value.owner,
       legacy := if stored.Some? then stored.value.legacy else c.legacy)
  }

  function Placed(book: Book, c: Contact): Book {
    var merged := Merged(book, c);
    var active, inactive := Without(book.active, c.id), Without(book.inactive, c.id);
    if HasId(book.inactive, c.id) && !merged.paired then Book(active, inactive + [merged])
    else Book(active + [merged], inactive)
  }

  function Trimmed(book: Book): Book {
    if |book.active| <= MAX_ACTIVE then book
    else
      var ranked := SortByInteraction(book.active);
      Book(ranked[..MAX_ACTIVE], book.inactive + ranked[MAX_ACTIVE..])
  }

  function Put(book: Book, c: Contact): Book {
    Trimmed(Placed(book, c))
  }

  function SetStatus(book: Book, id: string, status: Status): Book {
    var from, to := if status.Inactive? then book.active else book.inactive, if status.Inactive? then book.inactive else book.active;
    match Find(from, id)
    case None => book
    case Some(c) =>
      if status.Inactive? then Book(Without(from, id), to + [c]) else Book(to + [c], Without(from, id))
  }

  class ContactStore {
    var active: seq<Contact>
    var inactive: seq<Contact>

    function Contents(): Book
      reads this
    {
      Book(active, inactive)
    }

    constructor ()
      ensures Contents() == Book([], [])
    {
      active, inactive := [], [];
    }

    static method RemoveContactByID(items: seq<Contact>, id: string) returns (out: seq<Contact>)
      ensures out == Without(items, id)
    {
      out := [];
      for i := 0 to |items|
        invariant out == Without(items[..i], id)
      {
        assert items[..i + 1][..i] == items[..i];
        if items[i].id == id {
          continue;
        }
        out := out + [items[i]];
      }
      assert items[..|items|] == items;
    }

    static method TrimActiveContacts(active: seq<Contact>, limit: nat) returns (kept: seq<Contact>, moved: seq<Contact>)
      requires limit > 0
      ensures |active| <= limit ==> kept == active && moved == []
      ensures |active| > limit ==> kept + moved == SortByInteraction(active) && |kept| == limit
    {
      if |active| <= limit {
        return active, [];
      }
      var ranked := SortByInteraction(active);
      kept, moved := ranked[..limit], ranked[limit..];
    }

    method PutContact(contact: Contact)
      modifies this
      ensures Contents() == Put(old(Contents()), contact)
    {
      var c := contact;
      if !c.paired && (HasPaired(active, c.id) || HasPaired(inactive, c.id)) {
        c := c.(paired := true);
      }
      c := c.(owner := false);
      var stored := Find(active + inactive, c.id);
      if stored.Some? {
        c := c.(owner := stored.value.owner, legacy := stored.value.legacy);
      }
      var target := Active;
      if HasId(inactive, c.id) && !c.paired {
        target := Inactive;
      }
      assert c == Merged(old(Contents()), contact);
      var a := RemoveContactByID(active, c.id);
      var b := RemoveContactByID(inactive, c.id);
      if target.Inactive? {
        b := b + [c];
      } else {
        a := a + [c];
      }
      var kept, overflow := TrimActiveContacts(a, MAX_ACTIVE);
      if overflow != [] {
        b := b + overflow;
      }
      active, inactive := kept, b;
    }

    // Reports whether there is such a contact.
    method SetContactStatus(contactId: string, status: Status) returns (found: bool)
      modifies this
      ensures Contents() == SetStatus(old(Contents()), TrimSpace(contactId), status)
      ensures found <==> HasId(old(active), TrimSpace(contactId)) || HasId(old(inactive), TrimSpace(contactId))
    {
      var id := TrimSpace(contactId);
      var from, to := inactive, active;
      if status.Inactive? {
        from, to := active, inactive;
      }
      var contact := Find(from, id);
      if contact.None? {
        found := HasId(to, id);
        return;
      }
      from := RemoveContactByID(from, id);
      to := to + [contact.value];
      if status.Inactive? {
        active, inactive := from, to;
      } else {
        inactive, active := from, to;
      }
      found := true;
    }
  }
}
