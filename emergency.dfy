/**
 * The emergency contacts page: the contact list operations (add with a
 * default relationship, edit by id, delete by id), the add/edit form state,
 * and the page's voice commands.
 *
 * Speech, dialling (`tel:` links) and vibration are recorded in the ghost
 * log `effects`. The list itself belongs to the parent; the page's
 * `onUpdateContacts` calls are modelled as assignments to `contacts`.
 */
module Emergency {
  import opened Common
  import opened Text
  import Voice

  datatype Contact = Contact(id: string, name: string, phone: string, relationship: string)

  /** The contents of the add or the edit form. */
  datatype Draft = Draft(name: string, phone: string, relationship: string)

  const EmptyDraft := Draft("", "", "")
  const DefaultRelationship := "Contact"
  const EmergencyNumber := "911"
  const CallVibration: seq<nat> := [200, 100, 200, 100, 200]
  const FillBothPrompt := "Please fill in both name and phone number"

  /** What the page asks of the outside world. */
  datatype PageEffect = Say(text: string) | Dial(phone: string) | Vibrate(pattern: seq<nat>)

  // ---------------------------------------------------------------------
  // List operations
  // ---------------------------------------------------------------------

  /** Name and phone are both non-empty (the only check the form makes). */
  predicate IsComplete(d: Draft)
    ensures IsComplete(d) <==> |d.name| > 0 && |d.phone| > 0
    ensures d == EmptyDraft ==> !IsComplete(d)
  {
    d.name != "" && d.phone != ""
  }

  /** The contact a completed add form creates: an empty relationship becomes 'Contact'. */
  function NewContact(id: string, d: Draft): (c: Contact)
    ensures c.id == id && c.name == d.name && c.phone == d.phone
    ensures d.relationship != "" ==> c.relationship == d.relationship
    ensures d.relationship == "" ==> c.relationship == DefaultRelationship
    ensures c.relationship != ""
  {
    Contact(id, d.name, d.phone, if d.relationship == "" then DefaultRelationship else d.relationship)
  }

  /** Apply the edit form to every contact whose id is the one being edited. */
  function Edited(contacts: seq<Contact>, editing: Option<string>, d: Draft): (r: seq<Contact>)
    ensures |r| == |contacts|
    ensures forall i :: 0 <= i < |r| ==> r[i].id == contacts[i].id
    ensures forall i :: 0 <= i < |r| && editing == Some(contacts[i].id) ==>
              r[i].name == d.name && r[i].phone == d.phone && r[i].relationship == d.relationship
    ensures forall i :: 0 <= i < |r| && editing != Some(contacts[i].id) ==> r[i] == contacts[i]
  {
    seq(|contacts|, i requires 0 <= i < |contacts| =>
      if editing == Some(contacts[i].id)
      then contacts[i].(name := d.name, phone := d.phone, relationship := d.relationship)
      else contacts[i])
  }

  /** `contacts.filter(c => c.id !== id)`. */
  function WithoutId(contacts: seq<Contact>, id: string): (r: seq<Contact>)
    ensures |r| <= |contacts|
    ensures forall c :: c in r ==> c in contacts && c.id != id
    ensures forall c :: c in contacts && c.id != id ==> c in r
  {
    if contacts == [] then []
    else (if contacts[0].id == id then [] else [contacts[0]]) + WithoutId(contacts[1..], id)
  }

  /** Filtering distributes over concatenation, so the survivors keep their order. */
  lemma {:induction false} WithoutIdAppend(a: seq<Contact>, b: seq<Contact>, id: string)
    ensures WithoutId(a + b, id) == WithoutId(a, id) + WithoutId(b, id)
    decreases |a|
  {
    if a == [] {
      assert a + b == b;
    } else {
      WithoutIdFirst(a, [], id);
      WithoutIdFirst(a, b, id);
      WithoutIdAppend(a[1..], b, id);
      ConcatAssoc(if a[0].id == id then [] else [a[0]], WithoutId(a[1..], id), WithoutId(b, id));
    }
  }

  lemma ConcatAssoc(x: seq<Contact>, y: seq<Contact>, z: seq<Contact>)
    ensures x + (y + z) == (x + y) + z
  {
  }

  /** Filtering a non-empty list followed by more decides its first contact, then goes on. */
  lemma WithoutIdFirst(a: seq<Contact>, b: seq<Contact>, id: string)
    requires a != []
    ensures WithoutId(a + b, id) == (if a[0].id == id then [] else [a[0]]) + WithoutId(a[1..] + b, id)
    ensures b == [] ==> a + b == a && a[1..] + b == a[1..]
  {
    assert (a + b)[0] == a[0];
    assert (a + b)[1..] == a[1..] + b;
  }

  /** A list holding no contact with the id is left as it is. */
  lemma {:induction false} WithoutAbsentId(contacts: seq<Contact>, id: string)
    requires forall c :: c in contacts ==> c.id != id
    ensures WithoutId(contacts, id) == contacts
    decreases |contacts|
  {
    if contacts != [] {
      assert contacts[0] in contacts;
      assert forall c :: c in contacts[1..] ==> c in contacts;
      WithoutAbsentId(contacts[1..], id);
      WithoutIdFirst(contacts, [], id);
      assert [contacts[0]] + contacts[1..] == contacts;
    }
  }

  /** Deleting a contact just added under a fresh id gives back the list before the add. */
  lemma AddThenDelete(contacts: seq<Contact>, id: string, d: Draft)
    requires forall c :: c in contacts ==> c.id != id
    ensures WithoutId(contacts + [NewContact(id, d)], id) == contacts
  {
    WithoutIdAppend(contacts, [NewContact(id, d)], id);
    WithoutAbsentId(contacts, id);
    assert [NewContact(id, d)][1..] == [];
  }

  /** The index of the first contact with the id, if any (`contacts.find`). */
  function FindById(contacts: seq<Contact>, id: string): (r: Option<nat>)
    ensures r.Some? ==> r.value < |contacts| && contacts[r.value].id == id
    ensures r.Some? ==> forall j :: 0 <= j < r.value ==> contacts[j].id != id
    ensures r.None? <==> forall j :: 0 <= j < |contacts| ==> contacts[j].id != id
  {
    if contacts == [] then None
    else if contacts[0].id == id then Some(0)
    else match FindById(contacts[1..], id)
      case None => None
      case Some(k) => Some(k + 1)
  }

  /**
   * A contact that 'call emergency' may dial: phone 911, or a relationship
   * that spells 'emergency' with each letter in either case.
   */
  predicate IsEmergencyContact(c: Contact)
    ensures IsEmergencyContact(c) <==>
      c.phone == EmergencyNumber ||
      (|c.relationship| == 9 &&
       forall i :: 0 <= i < 9 ==> c.relationship[i] == "emergency"[i] || c.relationship[i] == "EMERGENCY"[i])
  {
    c.phone == EmergencyNumber || ToLower(c.relationship) == "emergency"
  }

  /** The index of the first emergency contact, if any. */
  function FindEmergencyContact(contacts: seq<Contact>): (r: Option<nat>)
    ensures r.Some? ==> r.value < |contacts| && IsEmergencyContact(contacts[r.value])
    ensures r.Some? ==> forall j :: 0 <= j < r.value ==> !IsEmergencyContact(contacts[j])
    ensures r.None? <==> forall j :: 0 <= j < |contacts| ==> !IsEmergencyContact(contacts[j])
  {
    if contacts == [] then None
    else if IsEmergencyContact(contacts[0]) then Some(0)
    else match FindEmergencyContact(contacts[1..])
      case None => None
      case Some(k) => Some(k + 1)
  }

  // ---------------------------------------------------------------------
  // Voice commands of the page
  // ---------------------------------------------------------------------

  datatype PageAction = AddContactAction | CallFirstContactAction | CallEmergencyAction | SaveContactAction | CancelAction

  /** The page's command table, in registration order; each action is registered once. */
  function PageCommands(): (table: seq<Voice.CommandSpec<PageAction>>)
    ensures |table| == 5
    ensures table[0].pattern == "add contact" && table[0].action == AddContactAction
    ensures table[1].pattern == "call first contact" && table[1].action == CallFirstContactAction
    ensures table[2].pattern == "call emergency" && table[2].action == CallEmergencyAction
    ensures table[3].pattern == "save contact" && table[3].action == SaveContactAction
    ensures table[4].pattern == "cancel" && table[4].action == CancelAction
    ensures forall i, j :: 0 <= i < j < |table| ==> table[i].action != table[j].action
  {
    [ Voice.CommandSpec("add contact", AddContactAction, "Add new emergency contact"),
      Voice.CommandSpec("call first contact", CallFirstContactAction, "Call first emergency contact"),
      Voice.CommandSpec("call emergency", CallEmergencyAction, "Call emergency services"),
      Voice.CommandSpec("save contact", SaveContactAction, "Save current contact"),
      Voice.CommandSpec("cancel", CancelAction, "Cancel current operation") ]
  }

  /** The table's patterns are already lower case, so matching uses them as written. */
  lemma PageCommandPatternsAreLower()
    ensures forall k :: 0 <= k < |PageCommands()| ==> ToLower(PageCommands()[k].pattern) == PageCommands()[k].pattern
  {
    forall k | 0 <= k < |PageCommands()|
      ensures ToLower(PageCommands()[k].pattern) == PageCommands()[k].pattern
    {
      ToLowerOfLower(PageCommands()[k].pattern);
    }
  }

  const SampleTranscript := "cancel call emergency"

  lemma SampleMissesAddContact()
    ensures !Voice.Matches(PageCommands()[0], SampleTranscript)
  {
    PageCommandPatternsAreLower();
    assert 'd' in "add contact" && 'd' !in SampleTranscript;
  }

  lemma SampleMissesCallFirstContact()
    ensures !Voice.Matches(PageCommands()[1], SampleTranscript)
  {
    PageCommandPatternsAreLower();
    assert 'f' in "call first contact" && 'f' !in SampleTranscript;
  }

  lemma SampleHitsCallEmergency()
    ensures Voice.Matches(PageCommands()[2], SampleTranscript)
  {
    PageCommandPatternsAreLower();
    assert SampleTranscript[7..21] == "call emergency";
    OccurrenceContains(SampleTranscript, "call emergency", 7);
  }

  /**
   * "cancel call emergency" mentions two registered phrases; the one
   * registered first ('call emergency', third in the table) wins over
   * 'cancel' (fifth), whatever their order in the sentence.
   */
  lemma FirstRegisteredPhraseWins()
    ensures Voice.FindCommand(PageCommands(), SampleTranscript) == Some(2)
  {
    SampleMissesAddContact();
    SampleMissesCallFirstContact();
    SampleHitsCallEmergency();
  }

  lemma SpokenPhraseLowerCases()
    ensures ToLower("  Cancel Call Emergency ") == "  cancel call emergency "
  {
    var raw := "  Cancel Call Emergency ";
    assert forall i :: 0 <= i < |raw| ==> ToLower(raw)[i] == "  cancel call emergency "[i];
  }

  lemma SpokenPhraseTrims()
    ensures Trim("  cancel call emergency ") == SampleTranscript
  {
    assert "  cancel call emergency " == "  " + SampleTranscript + " ";
    TrimPadding("  ", SampleTranscript, " ");
  }

  /** Spoken "  Cancel Call Emergency " normalises to the sample transcript. */
  lemma SpokenPhraseNormalises()
    ensures Voice.Normalise("  Cancel Call Emergency ") == SampleTranscript
  {
    SpokenPhraseLowerCases();
    SpokenPhraseTrims();
  }

  // ---------------------------------------------------------------------
  // The page
  // ---------------------------------------------------------------------

  class EmergencyPage {
    /** `navigator.vibrate` exists. */
    const canVibrate: bool

    var contacts: seq<Contact>
    var isAddingContact: bool
    /** The id of the contact being edited (`null` as None). */
    var editingContact: Option<string>
    var newContact: Draft
    var editContact: Draft

    ghost var effects: seq<PageEffect>

    constructor (contacts: seq<Contact>, canVibrate: bool)
      ensures this.contacts == contacts && this.canVibrate == canVibrate
      ensures !isAddingContact && editingContact == None
      ensures newContact == EmptyDraft && editContact == EmptyDraft
      ensures effects == []
    {
      this.contacts := contacts;
      this.canVibrate := canVibrate;
      isAddingContact := false;
      editingContact := None;
      newContact := EmptyDraft;
      editContact := EmptyDraft;
      effects := [];
    }

    /** What `handleCall` asks for: dial, announce, vibrate. */
    ghost function CallEffects(c: Contact): seq<PageEffect>
    {
      [Dial(c.phone), Say("Calling " + c.name)] + (if canVibrate then [Vibrate(CallVibration)] else [])
    }

    /** `handleCall`. */
    method Call(c: Contact)
      modifies this`effects
      ensures effects == old(effects) + CallEffects(c)
    {
      effects := effects + [Dial(c.phone), Say("Calling " + c.name)];
      if canVibrate {
        effects := effects + [Vibrate(CallVibration)];
      }
    }

    /** `handleAddContact` (the add button). */
    method AddContact()
      modifies this`isAddingContact, this`effects
      ensures isAddingContact
      ensures effects == old(effects) + [Say("Adding new emergency contact. Please fill in the name, phone number, and relationship.")]
    {
      isAddingContact := true;
      effects := effects + [Say("Adding new emergency contact. Please fill in the name, phone number, and relationship.")];
    }

    /** Typing in the add form. */
    method SetNewContact(d: Draft)
      modifies this`newContact
      ensures newContact == d
    {
      newContact := d;
    }

    /** Typing in the edit form. */
    method SetEditContact(d: Draft)
      modifies this`editContact
      ensures editContact == d
    {
      editContact := d;
    }

    /**
     * `handleSaveNewContact`, with `id` the creation timestamp rendered as text.
     * An incomplete form only prompts; a complete one appends exactly one
     * contact, clears the form and leaves adding mode.
     */
    method SaveNewContact(id: string)
      modifies this`contacts, this`newContact, this`isAddingContact, this`effects
      ensures !IsComplete(old(newContact)) ==>
        && contacts == old(contacts) && newContact == old(newContact)
        && isAddingContact == old(isAddingContact)
        && effects == old(effects) + [Say(FillBothPrompt)]
      ensures IsComplete(old(newContact)) ==>
        && contacts == old(contacts) + [NewContact(id, old(newContact))]
        && newContact == EmptyDraft && !isAddingContact
        && effects == old(effects) + [Say("Emergency contact " + old(newContact).name + " added successfully")]
    {
      if !IsComplete(newContact) {
        effects := effects + [Say(FillBothPrompt)];
        return;
      }
      var contact := NewContact(id, newContact);
      contacts := contacts + [contact];
      newContact := EmptyDraft;
      isAddingContact := false;
      effects := effects + [Say("Emergency contact " + contact.name + " added successfully")];
    }

    /** `handleEditContact`: open the edit form on a contact. */
    method BeginEdit(c: Contact)
      modifies this`editingContact, this`editContact, this`effects
      ensures editingContact == Some(c.id)
      ensures editContact == Draft(c.name, c.phone, c.relationship)
      ensures effects == old(effects) + [Say("Editing contact " + c.name)]
    {
      editingContact := Some(c.id);
      editContact := Draft(c.name, c.phone, c.relationship);
      effects := effects + [Say("Editing contact " + c.name)];
    }

    /**
     * `handleSaveEdit`: an incomplete form only prompts; a complete one rewrites
     * the contacts with the edited id and nothing else, then leaves editing mode.
     */
    method SaveEdit()
      modifies this`contacts, this`editingContact, this`editContact, this`effects
      ensures !IsComplete(old(editContact)) ==>
        && contacts == old(contacts) && editingContact == old(editingContact)
        && editContact == old(editContact) && effects == old(effects) + [Say(FillBothPrompt)]
      ensures IsComplete(old(editContact)) ==>
        && contacts == Edited(old(contacts), old(editingContact), old(editContact))
        && editingContact == None && editContact == EmptyDraft
        && effects == old(effects) + [Say("Contact updated successfully")]
    {
      if !IsComplete(editContact) {
        effects := effects + [Say(FillBothPrompt)];
        return;
      }
      contacts := Edited(contacts, editingContact, editContact);
      editingContact := None;
      editContact := EmptyDraft;
      effects := effects + [Say("Contact updated successfully")];
    }

    /** `handleDeleteContact`: drop every contact with the id; name the first one ("undefined" if none). */
    method DeleteContact(id: string)
      modifies this`contacts, this`effects
      ensures contacts == WithoutId(old(contacts), id)
      ensures match FindById(old(contacts), id)
        case Some(k) => effects == old(effects) + [Say("Contact " + old(contacts)[k].name + " deleted")]
        case None => effects == old(effects) + [Say("Contact undefined deleted")]
    {
      var found := FindById(contacts, id);
      var name := match found case Some(k) => contacts[k].name case None => "undefined";
      contacts := WithoutId(contacts, id);
      effects := effects + [Say("Contact " + name + " deleted")];
      assert "Contact " + "undefined" + " deleted" == "Contact undefined deleted";
    }

    /** The cancel button of the add form. */
    method CancelAdd()
      modifies this`isAddingContact, this`newContact, this`effects
      ensures !isAddingContact && newContact == EmptyDraft
      ensures effects == old(effects) + [Say("Add contact cancelled")]
    {
      isAddingContact := false;
      newContact := EmptyDraft;
      effects := effects + [Say("Add contact cancelled")];
    }

    /** The cancel button of the edit form. */
    method CancelEdit()
      modifies this`editingContact, this`editContact, this`effects
      ensures editingContact == None && editContact == EmptyDraft
      ensures effects == old(effects) + [Say("Edit cancelled")]
    {
      editingContact := None;
      editContact := EmptyDraft;
      effects := effects + [Say("Edit cancelled")];
    }

    // -------------------------------------------------------------------
    // The actions behind the page's voice commands
    // -------------------------------------------------------------------

    /** 'add contact'. */
    method VoiceAddContact()
      modifies this`isAddingContact, this`effects
      ensures isAddingContact
      ensures effects == old(effects) + [Say("Adding new emergency contact. Please fill in the details.")]
    {
      isAddingContact := true;
      effects := effects + [Say("Adding new emergency contact. Please fill in the details.")];
    }

    /** 'call first contact': call `contacts[0]` when there is one. */
    method VoiceCallFirstContact()
      modifies this`effects
      ensures |contacts| > 0 ==> effects == old(effects) + CallEffects(contacts[0])
      ensures |contacts| == 0 ==> effects == old(effects) + [Say("No emergency contacts available")]
    {
      if |contacts| > 0 {
        Call(contacts[0]);
      } else {
        effects := effects + [Say("No emergency contacts available")];
      }
    }

    /** 'call emergency': call the first emergency contact, or dial 911 directly. */
    method VoiceCallEmergency()
      modifies this`effects
      ensures match FindEmergencyContact(contacts)
        case Some(k) => effects == old(effects) + CallEffects(contacts[k])
        case None => effects == old(effects) + [Dial(EmergencyNumber), Say("Calling emergency services")]
    {
      match FindEmergencyContact(contacts) {
        case Some(k) =>
          Call(contacts[k]);
        case None =>
          effects := effects + [Dial(EmergencyNumber), Say("Calling emergency services")];
      }
    }

    /** `editingContact` is truthy: set and not the empty string. */
    predicate IsEditing()
      reads this
      ensures IsEditing() ==> editingContact.Some?
      ensures editingContact == Some("") ==> !IsEditing()
      ensures editingContact.Some? && |editingContact.value| > 0 ==> IsEditing()
    {
      editingContact.Some? && editingContact.value != ""
    }

    /**
     * What 'save contact' does, between the state before and after: the add
     * flow when adding, else the edit flow when editing, else nothing.
     */
    twostate predicate SavedByVoice(id: string)
      reads this
    {
      && (old(isAddingContact) && IsComplete(old(newContact)) ==>
            && contacts == old(contacts) + [NewContact(id, old(newContact))]
            && newContact == EmptyDraft && !isAddingContact
            && editingContact == old(editingContact) && editContact == old(editContact)
            && effects == old(effects) + [Say("Emergency contact " + old(newContact).name + " added successfully")])
      && (old(isAddingContact) && !IsComplete(old(newContact)) ==>
            && contacts == old(contacts) && newContact == old(newContact) && isAddingContact
            && editingContact == old(editingContact) && editContact == old(editContact)
            && effects == old(effects) + [Say(FillBothPrompt)])
      && (!old(isAddingContact) && old(IsEditing()) && IsComplete(old(editContact)) ==>
            && contacts == Edited(old(contacts), old(editingContact), old(editContact))
            && editingContact == None && editContact == EmptyDraft
            && isAddingContact == old(isAddingContact) && newContact == old(newContact)
            && effects == old(effects) + [Say("Contact updated successfully")])
      && (!old(isAddingContact) && old(IsEditing()) && !IsComplete(old(editContact)) ==>
            && contacts == old(contacts) && editingContact == old(editingContact) && editContact == old(editContact)
            && isAddingContact == old(isAddingContact) && newContact == old(newContact)
            && effects == old(effects) + [Say(FillBothPrompt)])
      && (!old(isAddingContact) && !old(IsEditing()) ==>
            && contacts == old(contacts) && editingContact == old(editingContact)
            && isAddingContact == old(isAddingContact)
            && newContact == old(newContact) && editContact == old(editContact) && effects == old(effects))
    }

    /** 'save contact'. */
    method VoiceSaveContact(id: string)
      modifies this
      ensures SavedByVoice(id)
    {
      if isAddingContact {
        SaveNewContact(id);
      } else if IsEditing() {
        SaveEdit();
      }
    }

    /** 'cancel': leave both modes and clear both forms. */
    method VoiceCancel()
      modifies this`isAddingContact, this`editingContact, this`newContact, this`editContact, this`effects
      ensures !isAddingContact && editingContact == None
      ensures newContact == EmptyDraft && editContact == EmptyDraft
      ensures contacts == old(contacts)
      ensures effects == old(effects) + [Say("Operation cancelled")]
    {
      isAddingContact := false;
      editingContact := None;
      newContact := EmptyDraft;
      editContact := EmptyDraft;
      effects := effects + [Say("Operation cancelled")];
    }

    /**
     * Run the action the voice engine selected; `id` is the timestamp a save
     * would use. Each action has the effect of its own handler; only 'save
     * contact' can change the list.
     */
    method RunAction(action: PageAction, id: string)
      modifies this
      ensures action != SaveContactAction ==> contacts == old(contacts)
      ensures action != SaveContactAction && action != CancelAction ==>
        && editingContact == old(editingContact)
        && newContact == old(newContact) && editContact == old(editContact)
      ensures action == CallFirstContactAction || action == CallEmergencyAction ==>
        isAddingContact == old(isAddingContact)
      ensures action == AddContactAction ==>
        && isAddingContact
        && effects == old(effects) + [Say("Adding new emergency contact. Please fill in the details.")]
      ensures action == CallFirstContactAction && |old(contacts)| > 0 ==>
        effects == old(effects) + CallEffects(old(contacts)[0])
      ensures action == CallFirstContactAction && |old(contacts)| == 0 ==>
        effects == old(effects) + [Say("No emergency contacts available")]
      ensures action == CallEmergencyAction ==>
        match FindEmergencyContact(old(contacts))
          case Some(k) => effects == old(effects) + CallEffects(old(contacts)[k])
          case None => effects == old(effects) + [Dial(EmergencyNumber), Say("Calling emergency services")]
      ensures action == SaveContactAction ==> SavedByVoice(id)
      ensures action == CancelAction ==>
        && !isAddingContact && editingContact == None
        && newContact == EmptyDraft && editContact == EmptyDraft
        && effects == old(effects) + [Say("Operation cancelled")]
    {
      match action {
        case AddContactAction => VoiceAddContact();
        case CallFirstContactAction => VoiceCallFirstContact();
        case CallEmergencyAction => VoiceCallEmergency();
        case SaveContactAction => VoiceSaveContact(id);
        case CancelAction => VoiceCancel();
      }
    }
  }
}
