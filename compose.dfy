/**
  The pure logic of the Create tab (App.tsx:358-437): the gate that lets a
  post or a save through, the record a new post becomes, the six-field
  partial an edit sends, and the form values loaded from a hangout.
 */
module Compose {
  import opened Model
  import opened Text
  import opened HangoutList

  /** The values of one hangout form: the main form or the edit sheet. */
  datatype Draft = Draft(
    title: string,
    where: string,
    when: string,
    isGroup: bool,
    slots: int,
    visibility: Visibility)

  /** The form as it is first shown and after every reset (App.tsx:341-346, 388, 403). */
  const EmptyDraft: Draft := Draft("", "", "", false, 2, Matches)

  /** `title.trim() && where.trim() && when.trim()`: a post never goes out
      with an empty title, location or time. */
  predicate CanPost(d: Draft)
    ensures CanPost(d) ==> d.title != [] && d.where != [] && d.when != []
  {
    HasText(d.title) && HasText(d.where) && HasText(d.when)
  }

  /** The hangout a post creates, under the id the caller supplies. */
  function NewHangout(id: string, d: Draft): (h: Hangout)
    ensures h.id == id && h.host == You
    ensures h.tags == ["Casual", "Vibes"] && h.distance == "~" && h.compatibility == 100
    ensures DraftOf(h) == d
  {
    Hangout(id, You, d.title, ["Casual", "Vibes"], d.when, d.where, "~", 100,
            d.isGroup, d.slots, d.visibility)
  }

  /** The partial both edit paths pass to the update: exactly six fields. */
  function EditPatch(d: Draft): (p: Patch)
    ensures p.id.None? && p.host.None? && p.tags.None? && p.distance.None? && p.compatibility.None?
    ensures p.title == Some(d.title) && p.where == Some(d.where) && p.when == Some(d.when)
    ensures p.isGroup == Some(d.isGroup) && p.slots == Some(d.slots) && p.visibility == Some(d.visibility)
  {
    NoChanges.(title := Some(d.title), where := Some(d.where), when := Some(d.when),
               isGroup := Some(d.isGroup), slots := Some(d.slots),
               visibility := Some(d.visibility))
  }

  /** The form values that editing a hangout loads (App.tsx:391-399, 412-419). */
  function DraftOf(h: Hangout): (d: Draft)
    ensures Merge(h, EditPatch(d)) == h
  {
    Draft(h.title, h.where, h.when, h.isGroup, h.slots, h.visibility)
  }

  /** The gate holds exactly when title, location and time each contain a
      character that is not white space. */
  lemma CanPostIff(d: Draft)
    ensures CanPost(d) <==>
      && (exists k :: 0 <= k < |d.title| && !IsSpace(d.title[k]))
      && (exists k :: 0 <= k < |d.where| && !IsSpace(d.where[k]))
      && (exists k :: 0 <= k < |d.when| && !IsSpace(d.when[k]))
  {
    HasTextIff(d.title);
    HasTextIff(d.where);
    HasTextIff(d.when);
  }

  /** The reset form never passes the gate. */
  lemma EmptyDraftBlocked()
    ensures !CanPost(EmptyDraft)
  {
  }

  /** An edit sets the six form fields to the draft and leaves id, host,
      tags, distance and compatibility alone. */
  lemma EditFields(h: Hangout, d: Draft)
    ensures DraftOf(Merge(h, EditPatch(d))) == d
    ensures Merge(h, EditPatch(d)).id == h.id
    ensures Merge(h, EditPatch(d)).host == h.host
    ensures Merge(h, EditPatch(d)).tags == h.tags
    ensures Merge(h, EditPatch(d)).distance == h.distance
    ensures Merge(h, EditPatch(d)).compatibility == h.compatibility
  {
  }

  /** Editing a fresh post is the same as having posted the edited form. */
  lemma EditNewHangout(id: string, d1: Draft, d2: Draft)
    ensures Merge(NewHangout(id, d1), EditPatch(d2)) == NewHangout(id, d2)
  {
  }

  /** An edit applied to the list: the matching hangouts take the draft's six
      fields and keep the rest, the others are untouched, and ids stay put. */
  lemma EditList(s: seq<Hangout>, id: string, d: Draft)
    ensures |UpdateById(s, id, EditPatch(d))| == |s|
    ensures forall i :: 0 <= i < |s| && s[i].id == id ==>
      var h := UpdateById(s, id, EditPatch(d))[i];
      && DraftOf(h) == d && h.id == s[i].id && h.host == s[i].host
      && h.tags == s[i].tags && h.distance == s[i].distance
      && h.compatibility == s[i].compatibility
    ensures forall i :: 0 <= i < |s| && s[i].id != id ==>
      UpdateById(s, id, EditPatch(d))[i] == s[i]
  {
    UpdatePointwise(s, id, EditPatch(d));
  }

  /** Saving two edits of the same hangout in a row: the second wins. */
  lemma EditTwice(s: seq<Hangout>, id: string, d1: Draft, d2: Draft)
    ensures UpdateById(UpdateById(s, id, EditPatch(d1)), id, EditPatch(d2))
         == UpdateById(s, id, EditPatch(d2))
  {
    UpdateLastWins(s, id, EditPatch(d1), EditPatch(d2));
  }
}
