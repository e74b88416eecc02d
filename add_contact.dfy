/** The stand-alone add-contact form (app/AddContact.tsx): validates the three fields and hands a
    record to its caller's callback. */
module AddContactForm {
  import opened Common
  import Text

  /** The record handed to `onAddContact`. */
  datatype ContactRecord = ContactRecord(id: string, name: string, phone: string, relationship: Option<string>)

  /** handleAdd: None when the name or the phone is blank (the "Missing info" alert, no callback);
      otherwise the one record passed to the callback, with trimmed fields, the clock's
      `Date.now().toString()` as id and an empty relationship dropped. */
  function HandleAdd(name: string, relationship: string, phone: string, id: string): (r: Option<ContactRecord>)
    ensures r.None? <==> Text.IsBlank(name) || Text.IsBlank(phone)
    ensures r.Some? ==> r.value.id == id && r.value.name == Text.Trim(name) && r.value.phone == Text.Trim(phone)
    ensures r.Some? ==> (r.value.relationship.None? <==> Text.IsBlank(relationship))
    ensures r.Some? && r.value.relationship.Some? ==> r.value.relationship.value == Text.Trim(relationship)
  {
    if Text.IsBlank(name) || Text.IsBlank(phone) then None
    else
      var rel := Text.Trim(relationship);
      Some(ContactRecord(id, Text.Trim(name), Text.Trim(phone), if rel == [] then None else Some(rel)))
  }

  /** The record's name and phone are non-empty and carry no surrounding whitespace. */
  lemma RecordFieldsAreTrimmed(name: string, relationship: string, phone: string, id: string)
    requires HandleAdd(name, relationship, phone, id).Some?
    ensures var c := HandleAdd(name, relationship, phone, id).value;
      && c.name != [] && !Text.IsSpace(c.name[0]) && !Text.IsSpace(c.name[|c.name| - 1])
      && c.phone != [] && !Text.IsSpace(c.phone[0]) && !Text.IsSpace(c.phone[|c.phone| - 1])
  {
    Text.TrimHasNoOuterSpace(name);
    Text.TrimHasNoOuterSpace(phone);
  }

  /** Feeding a produced record's fields back into the form gives the same record. */
  lemma HandleAddIdempotent(name: string, relationship: string, phone: string, id: string)
    requires HandleAdd(name, relationship, phone, id).Some?
    ensures var c := HandleAdd(name, relationship, phone, id).value;
      HandleAdd(c.name, c.relationship.GetOr(""), c.phone, id) == Some(c)
  {
    Text.TrimIdempotent(name);
    Text.TrimIdempotent(phone);
    Text.TrimIdempotent(relationship);
  }
}
