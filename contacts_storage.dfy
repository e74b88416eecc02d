/** The emergency-contacts store (app/services/contactsStorage.ts): one list of contacts kept under
    the EMERGENCY_CONTACTS key and rewritten as a whole by every change. */
module ContactsStorage {
  import opened Common
  import opened StorageTypes
  import Text
  import Seqs

  /** What addContact receives: a contact without id, createdAt and updatedAt. */
  datatype ContactInput = ContactInput(
    name: string,
    phone: string,
    relationship: Option<string>,
    isPrimary: bool,
    notes: Option<string>)

  /** A `Partial<EmergencyContact>` for updateContact: each present field overrides the stored one. */
  datatype ContactPatch = ContactPatch(
    id: Option<string>,
    name: Option<string>,
    phone: Option<string>,
    relationship: Option<string>,
    isPrimary: Option<bool>,
    notes: Option<string>,
    createdAt: Option<string>)

  // ---------------------------------------------------------------- invariants of the list

  predicate HasId(cs: seq<EmergencyContact>, id: string)
  {
    exists i :: 0 <= i < |cs| && cs[i].id == id
  }

  predicate UniqueIds(cs: seq<EmergencyContact>)
  {
    forall i, j :: 0 <= i < j < |cs| ==> cs[i].id != cs[j].id
  }

  predicate AtMostOnePrimary(cs: seq<EmergencyContact>)
  {
    forall i, j :: 0 <= i < j < |cs| && cs[i].isPrimary ==> !cs[j].isPrimary
  }

  /** The one primary contact sits at index k. */
  predicate OnlyPrimaryAt(cs: seq<EmergencyContact>, k: nat)
  {
    k < |cs| && forall i :: 0 <= i < |cs| ==> (cs[i].isPrimary <==> i == k)
  }

  // ---------------------------------------------------------------- queries

  /** getContact: the first contact with the id, or null. */
  function GetContact(cs: seq<EmergencyContact>, id: string): (r: Option<EmergencyContact>)
    ensures r.None? <==> !HasId(cs, id)
    ensures r.Some? ==> r.value.id == id && r.value in cs
    ensures r.Some? ==> exists i :: 0 <= i < |cs| && cs[i] == r.value && forall j :: 0 <= j < i ==> cs[j].id != id
  {
    Seqs.Find(cs, (c: EmergencyContact) => c.id == id)
  }

  /** getPrimaryContact: the first contact flagged primary, or null. */
  function GetPrimaryContact(cs: seq<EmergencyContact>): (r: Option<EmergencyContact>)
    ensures r.None? <==> forall i :: 0 <= i < |cs| ==> !cs[i].isPrimary
    ensures r.Some? ==> r.value.isPrimary && r.value in cs
    ensures r.Some? ==> exists i :: 0 <= i < |cs| && cs[i] == r.value && forall j :: 0 <= j < i ==> !cs[j].isPrimary
  {
    Seqs.Find(cs, (c: EmergencyContact) => c.isPrimary)
  }

  /** The comparator of getContactsSorted as a key: primary contacts ("0") ahead of the others
      ("1"), then by name. */
  function SortKey(c: EmergencyContact): string
  {
    [if c.isPrimary then '0' else '1'] + c.name
  }

  /** getContactsSorted. */
  function ContactsSorted(cs: seq<EmergencyContact>): (r: seq<EmergencyContact>)
    ensures multiset(r) == multiset(cs)
    ensures forall i, j :: 0 <= i < j < |r| && r[j].isPrimary ==> r[i].isPrimary
    ensures forall i, j :: 0 <= i < j < |r| && r[i].isPrimary == r[j].isPrimary ==> Text.StrLe(r[i].name, r[j].name)
  {
    var r := Seqs.SortBy(cs, SortKey, Seqs.Ascending);
    forall i, j | 0 <= i < j < |r|
      ensures r[j].isPrimary ==> r[i].isPrimary
      ensures r[i].isPrimary == r[j].isPrimary ==> Text.StrLe(r[i].name, r[j].name)
    {
      SortKeyOrder(r[i], r[j]);
    }
    r
  }

  /** Comparing sort keys compares the primary flags first and the names second. */
  lemma SortKeyOrder(a: EmergencyContact, b: EmergencyContact)
    requires Text.StrLe(SortKey(a), SortKey(b))
    ensures b.isPrimary ==> a.isPrimary
    ensures a.isPrimary == b.isPrimary ==> Text.StrLe(a.name, b.name)
  {
    var ka, kb := SortKey(a), SortKey(b);
    assert ka[1..] == a.name && kb[1..] == b.name;
  }

  /** getContactsByRelationship. */
  function ByRelationship(cs: seq<EmergencyContact>, relationship: string): (r: seq<EmergencyContact>)
    ensures Seqs.IsSubsequence(r, cs)
    ensures forall i :: 0 <= i < |r| ==> r[i].relationship == Some(relationship)
    ensures forall i :: 0 <= i < |cs| && cs[i].relationship == Some(relationship) ==> cs[i] in r
  {
    Seqs.Filter(cs, (c: EmergencyContact) => c.relationship == Some(relationship))
  }

  /** The filter of searchContacts: the lower-cased term in the lower-cased name or relationship,
      or the term as typed in the phone number. */
  predicate MatchesSearch(c: EmergencyContact, searchTerm: string)
  {
    var term := Text.ToLower(searchTerm);
    || Text.Includes(Text.ToLower(c.name), term)
    || Text.Includes(c.phone, searchTerm)
    || (c.relationship.Some? && Text.Includes(Text.ToLower(c.relationship.value), term))
  }

  /** searchContacts. */
  function SearchContacts(cs: seq<EmergencyContact>, searchTerm: string): (r: seq<EmergencyContact>)
    ensures Seqs.IsSubsequence(r, cs)
    ensures forall i :: 0 <= i < |r| ==> MatchesSearch(r[i], searchTerm)
    ensures forall i :: 0 <= i < |cs| && MatchesSearch(cs[i], searchTerm) ==> cs[i] in r
  {
    Seqs.Filter(cs, (c: EmergencyContact) => MatchesSearch(c, searchTerm))
  }

  /** Every contact matches the empty search term. */
  lemma SearchEmptyTermKeepsAll(cs: seq<EmergencyContact>)
    ensures SearchContacts(cs, "") == cs
  {
    forall i | 0 <= i < |cs| ensures MatchesSearch(cs[i], "") {
      assert Text.OccursAt(cs[i].phone, "", 0);
    }
    Seqs.FilterKeepsAll(cs, (c: EmergencyContact) => MatchesSearch(c, ""));
  }

  // ---------------------------------------------------------------- the new lists

  /** The record addContact builds from its input, a fresh id and the time. */
  function NewContact(input: ContactInput, id: string, now: string): (c: EmergencyContact)
    ensures c.id == id && c.createdAt == now && c.updatedAt.None?
    ensures c.name == input.name && c.phone == input.phone && c.isPrimary == input.isPrimary
    ensures c.relationship == input.relationship && c.notes == input.notes
  {
    EmergencyContact(id, input.name, input.phone, input.relationship, input.isPrimary, input.notes, now, None)
  }

  /** One contact after clearPrimaryFlags(exceptId). */
  function ClearOne(c: EmergencyContact, exceptId: Option<string>, now: string): EmergencyContact
  {
    if Some(c.id) != exceptId && c.isPrimary then c.(isPrimary := false, updatedAt := Some(now)) else c
  }

  /** The list clearPrimaryFlags saves. */
  function ClearedPrimaries(cs: seq<EmergencyContact>, exceptId: Option<string>, now: string): (r: seq<EmergencyContact>)
    ensures |r| == |cs|
    ensures forall i :: 0 <= i < |cs| ==> r[i] == ClearOne(cs[i], exceptId, now)
  {
    seq(|cs|, i requires 0 <= i < |cs| => ClearOne(cs[i], exceptId, now))
  }

  /** After clearing, only contacts carrying the excepted id can still be primary; ids and every
      other field except updatedAt are as before. */
  lemma ClearedPrimariesSpec(cs: seq<EmergencyContact>, exceptId: Option<string>, now: string)
    ensures var r := ClearedPrimaries(cs, exceptId, now);
      && (forall i :: 0 <= i < |r| && r[i].isPrimary ==> Some(r[i].id) == exceptId && cs[i].isPrimary)
      && (forall i :: 0 <= i < |r| ==> r[i].id == cs[i].id && r[i].name == cs[i].name && r[i].phone == cs[i].phone)
      && (forall i :: 0 <= i < |r| && !cs[i].isPrimary ==> r[i] == cs[i])
      && (forall i :: 0 <= i < |r| && Some(cs[i].id) == exceptId ==> r[i] == cs[i])
      && (forall i :: 0 <= i < |r| && cs[i].isPrimary && Some(cs[i].id) != exceptId ==>
            !r[i].isPrimary && r[i].updatedAt == Some(now))
      && (forall i :: 0 <= i < |r| ==> r[i].relationship == cs[i].relationship && r[i].notes == cs[i].notes
                                       && r[i].createdAt == cs[i].createdAt)
  {
  }

  /** The stored contact updateContact writes: the old fields, overridden by those present in the
      patch, with a new updatedAt. */
  function Merge(c: EmergencyContact, patch: ContactPatch, now: string): (m: EmergencyContact)
    ensures m.updatedAt == Some(now)
    ensures patch.id.None? ==> m.id == c.id
    ensures patch.id.Some? ==> m.id == patch.id.value
    ensures patch.name.None? ==> m.name == c.name
    ensures patch.name.Some? ==> m.name == patch.name.value
    ensures patch.phone.None? ==> m.phone == c.phone
    ensures patch.phone.Some? ==> m.phone == patch.phone.value
    ensures patch.relationship.None? ==> m.relationship == c.relationship
    ensures patch.relationship.Some? ==> m.relationship == patch.relationship
    ensures patch.isPrimary.None? ==> m.isPrimary == c.isPrimary
    ensures patch.isPrimary.Some? ==> m.isPrimary == patch.isPrimary.value
    ensures patch.notes.None? ==> m.notes == c.notes
    ensures patch.notes.Some? ==> m.notes == patch.notes
    ensures patch.createdAt.None? ==> m.createdAt == c.createdAt
    ensures patch.createdAt.Some? ==> m.createdAt == patch.createdAt.value
  {
    EmergencyContact(
      patch.id.GetOr(c.id),
      patch.name.GetOr(c.name),
      patch.phone.GetOr(c.phone),
      Override(patch.relationship, c.relationship),
      patch.isPrimary.GetOr(c.isPrimary),
      Override(patch.notes, c.notes),
      patch.createdAt.GetOr(c.createdAt),
      Some(now))
  }

  /** The list setPrimaryContact saves: only index k primary, and only k's updatedAt renewed. */
  function PrimaryAt(cs: seq<EmergencyContact>, k: nat, now: string): (r: seq<EmergencyContact>)
    ensures |r| == |cs|
    ensures forall i :: 0 <= i < |r| ==> (r[i].isPrimary <==> i == k)
    ensures forall i :: 0 <= i < |r| ==> r[i].id == cs[i].id && r[i].name == cs[i].name && r[i].phone == cs[i].phone
    ensures forall i :: 0 <= i < |r| ==> r[i].relationship == cs[i].relationship && r[i].notes == cs[i].notes
                                         && r[i].createdAt == cs[i].createdAt
    ensures k < |cs| ==> r[k].updatedAt == Some(now)
    ensures forall i :: 0 <= i < |r| && i != k ==> r[i].updatedAt == cs[i].updatedAt
  {
    seq(|cs|, i requires 0 <= i < |cs| => Stamped(cs[i], i, k, now))
  }

  /** The contact at position i after setPrimaryContact chose position k. */
  function Stamped(c: EmergencyContact, i: nat, k: nat, now: string): EmergencyContact
  {
    c.(isPrimary := i == k, updatedAt := if i == k then Some(now) else c.updatedAt)
  }

  /** The list deleteContact saves. */
  function WithoutId(cs: seq<EmergencyContact>, id: string): (r: seq<EmergencyContact>)
    ensures Seqs.IsSubsequence(r, cs)
    ensures !HasId(r, id)
    ensures forall i :: 0 <= i < |cs| && cs[i].id != id ==> cs[i] in r
  {
    Seqs.Filter(cs, (c: EmergencyContact) => c.id != id)
  }

  // ---------------------------------------------------------------- lemmas about the lists

  /** Adding a primary contact leaves it the only primary one. */
  lemma AddPrimaryIsOnlyPrimary(cs: seq<EmergencyContact>, input: ContactInput, id: string, now: string)
    requires input.isPrimary
    ensures OnlyPrimaryAt(ClearedPrimaries(cs, None, now) + [NewContact(input, id, now)], |cs|)
  {
  }

  /** Adding a contact with a fresh id keeps ids unique and at most one primary. */
  lemma AddKeepsWellFormed(cs: seq<EmergencyContact>, input: ContactInput, id: string, now: string)
    requires UniqueIds(cs) && AtMostOnePrimary(cs) && !HasId(cs, id)
    ensures var r := (if input.isPrimary then ClearedPrimaries(cs, None, now) else cs) + [NewContact(input, id, now)];
      UniqueIds(r) && AtMostOnePrimary(r)
  {
    var base := if input.isPrimary then ClearedPrimaries(cs, None, now) else cs;
    assert forall i :: 0 <= i < |base| ==> base[i].id == cs[i].id;
    var r := base + [NewContact(input, id, now)];
    assert forall i :: 0 <= i < |cs| ==> r[i] == base[i];
  }

  /** setPrimaryContact on a present id makes its first match the only primary contact. */
  lemma PrimaryAtIsOnlyPrimary(cs: seq<EmergencyContact>, id: string, now: string)
    requires HasId(cs, id)
    ensures var k := Seqs.FindIndex(cs, (c: EmergencyContact) => c.id == id);
      k.Some? && OnlyPrimaryAt(PrimaryAt(cs, k.value, now), k.value)
      && PrimaryAt(cs, k.value, now)[k.value].id == id
      && forall i :: 0 <= i < k.value ==> cs[i].id != id
  {
  }

  /** deleteContact's filter shrinks the list exactly when some contact has the id. */
  lemma WithoutIdShrinksIff(cs: seq<EmergencyContact>, id: string)
    ensures |WithoutId(cs, id)| < |cs| <==> HasId(cs, id)
  {
    Seqs.FilterKeepsAll(cs, (c: EmergencyContact) => c.id != id);
  }

  /** Deleting keeps ids unique and at most one primary. */
  lemma WithoutIdKeepsWellFormed(cs: seq<EmergencyContact>, id: string)
    requires UniqueIds(cs) && AtMostOnePrimary(cs)
    ensures UniqueIds(WithoutId(cs, id)) && AtMostOnePrimary(WithoutId(cs, id))
  {
    SubsequenceKeepsWellFormed(WithoutId(cs, id), cs);
  }

  lemma {:induction false} SubsequenceKeepsWellFormed(r: seq<EmergencyContact>, cs: seq<EmergencyContact>)
    requires Seqs.IsSubsequence(r, cs) && UniqueIds(cs) && AtMostOnePrimary(cs)
    ensures UniqueIds(r) && AtMostOnePrimary(r)
    decreases |cs|
  {
    if r != [] {
      assert cs != [];
      if r[0] == cs[0] {
        SubsequenceKeepsWellFormed(r[1..], cs[1..]);
        SubsequenceMembers(r[1..], cs[1..]);
        forall j | 0 < j < |r| ensures r[0].id != r[j].id && (r[0].isPrimary ==> !r[j].isPrimary) {
          assert r[j] == r[1..][j - 1];
          var k :| 0 <= k < |cs[1..]| && cs[1..][k] == r[j];
          assert cs[k + 1] == r[j];
        }
      } else {
        SubsequenceKeepsWellFormed(r, cs[1..]);
      }
    }
  }

  /** Every element of a subsequence is an element of the whole. */
  lemma {:induction false} SubsequenceMembers<T>(r: seq<T>, s: seq<T>)
    requires Seqs.IsSubsequence(r, s)
    ensures forall i :: 0 <= i < |r| ==> r[i] in s
    decreases |s|
  {
    if r != [] {
      if r[0] == s[0] {
        SubsequenceMembers(r[1..], s[1..]);
        forall i | 0 < i < |r| ensures r[i] in s {
          assert r[i] == r[1..][i - 1];
          assert r[i] in s[1..];
        }
      } else {
        SubsequenceMembers(r, s[1..]);
        forall i | 0 <= i < |r| ensures r[i] in s {
          assert r[i] in s[1..];
        }
      }
    }
  }

  // ---------------------------------------------------------------- the store

  /** The contacts store. `blob` is what is saved under the EMERGENCY_CONTACTS key (None when
      nothing has been saved). */
  class ContactsStore {
    var blob: Option<seq<EmergencyContact>>

    constructor ()
      ensures blob.None?
    {
      blob := None;
    }

    /** getAllContacts: the saved list, or an empty one when nothing is stored. */
    function AllContacts(): (r: seq<EmergencyContact>)
      reads this
      ensures blob.None? ==> r == []
      ensures blob.Some? ==> r == blob.value
    {
      blob.GetOr([])
    }

    /** getContactCount. */
    function ContactCount(): (n: nat)
      reads this
      ensures n == |AllContacts()|
    {
      |AllContacts()|
    }

    /** clearPrimaryFlags: un-flags every primary contact whose id differs from exceptId, stamping
        updatedAt, and saves the list (even an empty one). */
    method ClearPrimaryFlags(exceptId: Option<string>, now: string)
      modifies this
      ensures blob == Some(ClearedPrimaries(old(AllContacts()), exceptId, now))
    {
      var cs := AllContacts();
      ghost var before := cs;
      var i := 0;
      while i < |cs|
        invariant 0 <= i <= |cs| == |before|
        invariant forall k :: 0 <= k < i ==> cs[k] == ClearOne(before[k], exceptId, now)
        invariant forall k :: i <= k < |cs| ==> cs[k] == before[k]
      {
        if Some(cs[i].id) != exceptId && cs[i].isPrimary {
          cs := cs[i := cs[i].(isPrimary := false, updatedAt := Some(now))];
        }
        i := i + 1;
      }
      assert cs == ClearedPrimaries(before, exceptId, now);
      blob := Some(cs);
    }

    /** addContact: appends a new contact with a fresh id; a primary one first clears the others. */
    method AddContact(input: ContactInput, freshId: string, now: string) returns (c: EmergencyContact)
      modifies this
      ensures c == NewContact(input, freshId, now)
      ensures blob == Some((if input.isPrimary then ClearedPrimaries(old(AllContacts()), None, now)
                           else old(AllContacts())) + [c])
      ensures |AllContacts()| == |old(AllContacts())| + 1 && AllContacts()[|AllContacts()| - 1] == c
      ensures !input.isPrimary ==> AllContacts()[..|AllContacts()| - 1] == old(AllContacts())
      ensures input.isPrimary ==> OnlyPrimaryAt(AllContacts(), |AllContacts()| - 1)
      ensures UniqueIds(old(AllContacts())) && AtMostOnePrimary(old(AllContacts())) && !HasId(old(AllContacts()), freshId)
              ==> UniqueIds(AllContacts()) && AtMostOnePrimary(AllContacts())
    {
      ghost var before := AllContacts();
      if input.isPrimary {
        ClearPrimaryFlags(None, now);
        AddPrimaryIsOnlyPrimary(before, input, freshId, now);
      }
      c := NewContact(input, freshId, now);
      var cs := AllContacts();
      cs := cs + [c];
      blob := Some(cs);
      if UniqueIds(before) && AtMostOnePrimary(before) && !HasId(before, freshId) {
        AddKeepsWellFormed(before, input, freshId, now);
      }
    }

    /** updateContact. When the patch sets isPrimary, the other primaries are cleared first, even if
        the id turns out to be absent. An absent id returns null; otherwise the first contact with
        the id is merged with the patch and stamped. */
    method UpdateContact(id: string, patch: ContactPatch, now: string) returns (r: Option<EmergencyContact>)
      modifies this
      ensures var base := if patch.isPrimary == Some(true) then ClearedPrimaries(old(AllContacts()), Some(id), now)
                          else old(AllContacts());
        match Seqs.FindIndex(base, (c: EmergencyContact) => c.id == id)
        case None =>
          && r.None?
          && blob == (if patch.isPrimary == Some(true) then Some(base) else old(blob))
        case Some(k) =>
          && r == Some(Merge(base[k], patch, now))
          && blob == Some(base[k := Merge(base[k], patch, now)])
      ensures r.None? <==> !HasId(old(AllContacts()), id)
    {
      ghost var before := AllContacts();
      if patch.isPrimary == Some(true) {
        ClearPrimaryFlags(Some(id), now);
        ClearedPrimariesSpec(before, Some(id), now);
      }
      var cs := AllContacts();
      var index := Seqs.FindIndex(cs, (c: EmergencyContact) => c.id == id);
      if index.None? {
        r := None;
        return;
      }
      var k := index.value;
      var updated := Merge(cs[k], patch, now);
      cs := cs[k := updated];
      blob := Some(cs);
      r := Some(updated);
    }

    /** deleteContact: false and nothing saved when no contact has the id; otherwise every contact
        with the id is removed. */
    method DeleteContact(id: string) returns (deleted: bool)
      modifies this
      ensures deleted <==> HasId(old(AllContacts()), id)
      ensures deleted ==> blob == Some(WithoutId(old(AllContacts()), id))
      ensures !deleted ==> blob == old(blob)
    {
      var cs := AllContacts();
      var filtered := Seqs.Filter(cs, (c: EmergencyContact) => c.id != id);
      WithoutIdShrinksIff(cs, id);
      if |filtered| == |cs| {
        return false;
      }
      blob := Some(filtered);
      return true;
    }

    /** setPrimaryContact: false with nothing changed for an absent id; otherwise the first contact
        with the id becomes the only primary one and gets a new updatedAt. */
    method SetPrimaryContact(id: string, now: string) returns (ok: bool)
      modifies this
      ensures ok <==> HasId(old(AllContacts()), id)
      ensures !ok ==> blob == old(blob)
      ensures ok ==> exists k :: 0 <= k < |old(AllContacts())|
                       && old(AllContacts())[k].id == id
                       && (forall i :: 0 <= i < k ==> old(AllContacts())[i].id != id)
                       && blob == Some(PrimaryAt(old(AllContacts()), k, now))
                       && OnlyPrimaryAt(AllContacts(), k)
    {
      var cs := AllContacts();
      ghost var before := cs;
      var index := Seqs.FindIndex(cs, (c: EmergencyContact) => c.id == id);
      if index.None? {
        return false;
      }
      var k := index.value;
      var i := 0;
      while i < |cs|
        invariant 0 <= i <= |cs| == |before|
        invariant forall j :: 0 <= j < i ==> cs[j] == Stamped(before[j], j, k, now)
        invariant forall j :: i <= j < |cs| ==> cs[j] == before[j]
      {
        cs := cs[i := Stamped(cs[i], i, k, now)];
        i := i + 1;
      }
      assert cs == PrimaryAt(before, k, now);
      blob := Some(cs);
      assert OnlyPrimaryAt(AllContacts(), k) by {
        PrimaryAtIsOnlyPrimary(before, id, now);
      }
      return true;
    }
  }
}
