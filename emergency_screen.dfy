/** The emergency screen (app/functions/EmergencyContact.tsx): the dial URL for the crisis line and
    the "support circle" list, loaded from the contacts store and extended by an inline form. */
module EmergencyScreen {
  import opened Common
  import opened StorageTypes
  import Text
  import ContactsStorage

  const EMERGENCY_NUMBER: string := "999"

  /** dialEmergency's URL: `tel:` on Android, `telprompt:` on every other platform. */
  function DialUrl(os: string): (url: string)
    ensures os == "android" ==> url == "tel:" + EMERGENCY_NUMBER
    ensures os != "android" ==> url == "telprompt:" + EMERGENCY_NUMBER
  {
    (if os == "android" then "tel:" else "telprompt:") + EMERGENCY_NUMBER
  }

  /** Whatever the platform, the URL ends in the emergency number. */
  lemma DialUrlEndsWithNumber(os: string)
    ensures var url := DialUrl(os); |url| > 3 && url[|url| - 3..] == EMERGENCY_NUMBER
  {
  }

  /** The record the form saves: trimmed fields, the relationship kept even when empty, no notes
      and no primary flag. */
  function ToSave(name: string, relationship: string, phone: string): (input: ContactsStorage.ContactInput)
    ensures input.name == Text.Trim(name) && input.phone == Text.Trim(phone)
    ensures input.relationship == Some(Text.Trim(relationship))
    ensures !input.isPrimary && input.notes.None?
  {
    ContactsStorage.ContactInput(Text.Trim(name), Text.Trim(phone), Some(Text.Trim(relationship)), false, None)
  }

  /** The screen puts the new contact first while the store puts it last: both lists hold the same
      contacts, but in a different order as soon as there was any contact before. */
  lemma PrependDiffersFromAppend(before: seq<EmergencyContact>, c: EmergencyContact)
    requires before != [] && !ContactsStorage.HasId(before, c.id)
    ensures multiset([c] + before) == multiset(before + [c])
    ensures [c] + before != before + [c]
  {
    assert ([c] + before)[0] == c;
    assert (before + [c])[0] == before[0];
    assert before[0].id != c.id;
  }

  /** The screen's state: the local list and the inline add form. */
  class SupportCircle {
    var supportContacts: seq<EmergencyContact>
    var adding: bool
    var newName: string
    var newRelationship: string
    var newPhone: string

    constructor ()
      ensures supportContacts == [] && !adding && newName == "" && newRelationship == "" && newPhone == ""
    {
      supportContacts, adding := [], false;
      newName, newRelationship, newPhone := "", "", "";
    }

    /** The mount effect: the stored contacts replace the (empty) local list; a failed read is
        logged and changes nothing. */
    method Load(store: ContactsStorage.ContactsStore, readOk: bool)
      modifies this
      ensures readOk ==> supportContacts == store.AllContacts()
      ensures !readOk ==> supportContacts == old(supportContacts)
      ensures adding == old(adding) && newName == old(newName) && newRelationship == old(newRelationship)
              && newPhone == old(newPhone)
    {
      if readOk {
        supportContacts := store.AllContacts();
      }
    }

    /** The successful save of handleAddContact: the store appends the contact, the screen puts it
        first, and the form is cleared and closed. */
    method SaveContact(store: ContactsStorage.ContactsStore, input: ContactsStorage.ContactInput, freshId: string, now: string)
      returns (c: EmergencyContact)
      requires !input.isPrimary
      modifies this, store
      ensures c == ContactsStorage.NewContact(input, freshId, now)
      ensures store.AllContacts() == old(store.AllContacts()) + [c]
      ensures supportContacts == [c] + old(supportContacts)
      ensures !adding && newName == "" && newRelationship == "" && newPhone == ""
    {
      c := store.AddContact(input, freshId, now);
      supportContacts := [c] + supportContacts;
      newName, newRelationship, newPhone := "", "", "";
      adding := false;
    }

    /** handleAddContact: a blank name or phone stops before any save. Otherwise the trimmed record
        is added to the store; once the save succeeds the new contact goes to the front of the local
        list, the form is emptied and closed. A failed save changes neither the store nor the screen. */
    method HandleAddContact(store: ContactsStorage.ContactsStore, saveOk: bool, freshId: string, now: string)
      returns (saved: Option<EmergencyContact>)
      modifies this, store
      ensures saved.Some? <==> !Text.IsBlank(old(newName)) && !Text.IsBlank(old(newPhone)) && saveOk
      ensures saved.None? ==>
        && supportContacts == old(supportContacts) && adding == old(adding)
        && newName == old(newName) && newRelationship == old(newRelationship) && newPhone == old(newPhone)
        && store.blob == old(store.blob)
      ensures saved.Some? ==>
        var c := saved.value;
        && c == ContactsStorage.NewContact(ToSave(old(newName), old(newRelationship), old(newPhone)), freshId, now)
        && supportContacts == [c] + old(supportContacts)
        && store.AllContacts() == old(store.AllContacts()) + [c]
        && !adding && newName == "" && newRelationship == "" && newPhone == ""
    {
      if Text.IsBlank(newName) || Text.IsBlank(newPhone) {
        return None;
      }
      if !saveOk {
        return None;
      }
      var c := SaveContact(store, ToSave(newName, newRelationship, newPhone), freshId, now);
      saved := Some(c);
    }
  }
}
