/**
  The state the app's components hold and the handlers that replace it:
  the app-level hangout list (App.tsx:1205, 1234-1241), the Create tab's form
  state and handlers (App.tsx:337-459), and the Matches tab's incoming
  requests and chat (App.tsx:812-846).
 */
module Screens {
  import opened Model
  import opened Text
  import opened HangoutList
  import opened Compose
  import opened Requests
  import opened Chat

  /** The alert a handler shows, by its title. */
  datatype Notice = AddDetails | Updated | Posted | Removed

  /** The `myHangouts` state of the app shell. */
  class HangoutStore {
    var hangouts: seq<Hangout>

    /** `useState<Hangout[]>(seed)`; the seed list itself is not modelled. */
    constructor (seed: seq<Hangout>)
      ensures hangouts == seed
    {
      hangouts := seed;
    }

    /** `onCreated`: the new hangout goes in front, the old ones follow in order. */
    method Create(h: Hangout)
      modifies this
      ensures hangouts == [h] + old(hangouts)
      ensures |hangouts| == |old(hangouts)| + 1 && hangouts[0] == h && hangouts[1..] == old(hangouts)
    {
      hangouts := [h] + hangouts;
    }

    /** `onUpdateHangout` */
    method Update(id: string, p: Patch)
      modifies this
      ensures hangouts == UpdateById(old(hangouts), id, p)
    {
      hangouts := UpdateById(hangouts, id, p);
    }

    /** `onRemoveHangout` */
    method Remove(id: string)
      modifies this
      ensures hangouts == RemoveById(old(hangouts), id)
    {
      hangouts := RemoveById(hangouts, id);
    }
  }

  /** The Create tab: the main form, the hangout being edited through it,
      and the detail sheet with its own edit form. Each form's six hooks
      (`title` ... `visibility`, `editTitle` ... `editVisibility`) are held as
      one `Draft`. */
  class CreateScreen {
    var form: Draft
    var notes: string
    var editingHangout: Option<Hangout>
    var selectedHangout: Option<Hangout>
    var showHangoutDetail: bool
    var isEditingInModal: bool
    var editForm: Draft

    constructor ()
      ensures form == EmptyDraft && notes == "" && editingHangout == None
      ensures selectedHangout == None && !showHangoutDetail && !isEditingInModal
      ensures editForm == EmptyDraft
    {
      form, notes, editingHangout := EmptyDraft, "", None;
      selectedHangout, showHangoutDetail, isEditingInModal := None, false, false;
      editForm := EmptyDraft;
    }

    /** `post`: behind the gate, either saves the edit under way or creates
        a hangout under `newId`, then clears the form (App.tsx:360-389). */
    method Post(store: HangoutStore, newId: string) returns (notice: Notice)
      modifies this, store
      ensures !CanPost(old(form)) ==> notice == AddDetails && unchanged(this, store)
      ensures CanPost(old(form)) && old(editingHangout).Some? ==>
        && notice == Updated
        && store.hangouts == UpdateById(old(store.hangouts), old(editingHangout).value.id, EditPatch(old(form)))
      ensures CanPost(old(form)) && old(editingHangout).None? ==>
        && notice == Posted
        && store.hangouts == [NewHangout(newId, old(form))] + old(store.hangouts)
      ensures CanPost(old(form)) ==>
        && form == EmptyDraft && notes == "" && editingHangout == None
        && unchanged(this`selectedHangout, this`showHangoutDetail, this`isEditingInModal, this`editForm)
    {
      if !CanPost(form) {
        return AddDetails;
      }
      if editingHangout.Some? {
        store.Update(editingHangout.value.id, EditPatch(form));
        editingHangout := None;
        notice := Updated;
      } else {
        store.Create(NewHangout(newId, form));
        notice := Posted;
      }
      form, notes := EmptyDraft, "";
    }

    /** `editHangout`: loads a hangout into the main form and marks it as being edited. */
    method EditHangout(h: Hangout)
      modifies this
      ensures form == DraftOf(h) && editingHangout == Some(h)
      ensures unchanged(this`notes, this`selectedHangout, this`showHangoutDetail, this`isEditingInModal, this`editForm)
    {
      editingHangout := Some(h);
      form := DraftOf(h);
    }

    /** `cancelEdit`: drops the edit under way and clears the form. */
    method CancelEdit()
      modifies this
      ensures form == EmptyDraft && notes == "" && editingHangout == None
      ensures unchanged(this`selectedHangout, this`showHangoutDetail, this`isEditingInModal, this`editForm)
    {
      editingHangout := None;
      form, notes := EmptyDraft, "";
    }

    /** `openHangoutDetail` */
    method OpenHangoutDetail(h: Hangout)
      modifies this
      ensures selectedHangout == Some(h) && showHangoutDetail && !isEditingInModal
      ensures unchanged(this`form, this`notes, this`editingHangout, this`editForm)
    {
      selectedHangout := Some(h);
      showHangoutDetail := true;
      isEditingInModal := false;
    }

    /** `startEditingInModal`: loads a hangout into the sheet's edit form. */
    method StartEditingInModal(h: Hangout)
      modifies this
      ensures editForm == DraftOf(h) && isEditingInModal
      ensures unchanged(this`form, this`notes, this`editingHangout, this`selectedHangout, this`showHangoutDetail)
    {
      editForm := DraftOf(h);
      isEditingInModal := true;
    }

    /** `saveEditInModal`: with a hangout selected and the gate passed, sends
        the sheet's six fields to the update and leaves edit mode. */
    method SaveEditInModal(store: HangoutStore) returns (notice: Notice)
      modifies this, store
      ensures !(old(selectedHangout).Some? && CanPost(old(editForm))) ==>
        notice == AddDetails && unchanged(this, store)
      ensures old(selectedHangout).Some? && CanPost(old(editForm)) ==>
        && notice == Updated && !isEditingInModal
        && store.hangouts == UpdateById(old(store.hangouts), old(selectedHangout).value.id, EditPatch(old(editForm)))
        && unchanged(this`form, this`notes, this`editingHangout, this`selectedHangout, this`showHangoutDetail, this`editForm)
    {
      if selectedHangout.Some? && CanPost(editForm) {
        store.Update(selectedHangout.value.id, EditPatch(editForm));
        isEditingInModal := false;
        notice := Updated;
      } else {
        notice := AddDetails;
      }
    }

    /** `cancelEditInModal` */
    method CancelEditInModal()
      modifies this
      ensures !isEditingInModal
      ensures unchanged(this`form, this`notes, this`editingHangout, this`selectedHangout, this`showHangoutDetail, this`editForm)
    {
      isEditingInModal := false;
    }

    /** `removeHangout`: asks for confirmation, and only the prompt's Remove
        button (`confirmed`) takes the id out of the list and shows the
        "Removed" alert. A list card's Remove button (App.tsx:602) calls it
        directly, leaving the sheet alone. */
    method RemoveHangout(store: HangoutStore, id: string, confirmed: bool) returns (notice: Option<Notice>)
      modifies store
      ensures confirmed ==> notice == Some(Removed) && store.hangouts == RemoveById(old(store.hangouts), id)
      ensures !confirmed ==> notice == None && store.hangouts == old(store.hangouts)
    {
      if confirmed {
        store.Remove(id);
        notice := Some(Removed);
      } else {
        notice := None;
      }
    }

    /** The detail sheet's Remove button, shown only while a hangout is
        selected: it closes the sheet on the press, before the prompt, so the
        sheet stays closed whatever the answer (App.tsx:648, 789-792). */
    method RemoveFromSheet(store: HangoutStore, confirmed: bool) returns (notice: Option<Notice>)
      requires selectedHangout.Some?
      modifies this, store
      ensures !showHangoutDetail
      ensures confirmed ==>
        notice == Some(Removed) && store.hangouts == RemoveById(old(store.hangouts), old(selectedHangout).value.id)
      ensures !confirmed ==> notice == None && store.hangouts == old(store.hangouts)
      ensures unchanged(this`form, this`notes, this`editingHangout, this`selectedHangout, this`isEditingInModal, this`editForm)
    {
      showHangoutDetail := false;
      notice := RemoveHangout(store, selectedHangout.value.id, confirmed);
    }
  }

  /** The Matches tab: incoming requests, the chat input and the chat history. */
  class InboxScreen {
    var incoming: seq<Request>
    var chatMessage: string
    var chatHistory: seq<Message>

    /** `useState(seedIncoming)`; the seed list itself is not modelled. */
    constructor (seed: seq<Request>)
      ensures incoming == seed && chatMessage == "" && chatHistory == []
    {
      incoming, chatMessage, chatHistory := seed, "", [];
    }

    /** `act`: records the decision on the request with that id. */
    method Act(id: string, d: Decision)
      modifies this
      ensures incoming == Respond(old(incoming), id, d)
      ensures chatMessage == old(chatMessage) && chatHistory == old(chatHistory)
    {
      incoming := Respond(incoming, id, d);
    }

    /** `sendMessage`, without the delayed auto-reply. */
    method SendMessage(newId: string)
      modifies this
      ensures (chatHistory, chatMessage) == Send(old(chatHistory), old(chatMessage), newId)
      ensures incoming == old(incoming)
    {
      if HasText(chatMessage) {
        chatHistory := chatHistory + [Message(newId, Trim(chatMessage), true)];
        chatMessage := "";
      }
    }
  }

  /** Posting a filled-in form onto a store of three hangouts gives four
      hangouts, the new one first with the post defaults; removing it again
      restores the store. */
  method PostScenario(seed: seq<Hangout>, newId: string, title: string, where: string, when: string)
    requires |seed| == 3 && newId !in Ids(seed)
    requires HasText(title) && HasText(where) && HasText(when)
  {
    var store := new HangoutStore(seed);
    var screen := new CreateScreen();
    var d := Draft(title, where, when, false, 2, Matches);
    screen.form := d;
    assert screen.editingHangout == None && store.hangouts == seed;
    var notice := screen.Post(store, newId);
    assert notice == Posted && store.hangouts == [NewHangout(newId, d)] + seed;
    assert |store.hangouts| == 4 && store.hangouts[0].compatibility == 100;
    assert store.hangouts[0].tags == ["Casual", "Vibes"] && store.hangouts[0].host == You;
    var removed := screen.RemoveHangout(store, newId, true);
    CreateThenRemove(seed, NewHangout(newId, d));
    assert store.hangouts == seed;
  }

  /** The form of the scenario above, "Run" at "Park" on "Fri 6PM", passes the gate. */
  lemma RunInTheParkPasses()
    ensures CanPost(Draft("Run", "Park", "Fri 6PM", false, 2, Matches))
  {
    var d := Draft("Run", "Park", "Fri 6PM", false, 2, Matches);
    CanPostIff(d);
    assert !IsSpace(d.title[0]) && !IsSpace(d.where[0]) && !IsSpace(d.when[0]);
  }
}
