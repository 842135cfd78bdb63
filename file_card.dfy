/**
 * The rules of src/components/FileCard.js: the per-user reaction toggle over five counters,
 * who may delete a card, the delete steps with best-effort storage cleanup, the type-config
 * fallback and the displayed counter. Store writes are modelled by their effect; the first
 * store call that throws is given by `failAt` (calls are numbered from 0 in the order made).
 */
module FileCard {
  import opened Common

  /** `REACTIONS`, in display order. */
  const ReactionList: seq<Emoji> := [ThumbsUp, Fire, Heart, Note, Poo]

  /** The per-user reaction document `uploads/{id}/reactions/{uid}`. */
  datatype ReactionDoc = ReactionDoc(emoji: Emoji, userName: string)

  /** What a reaction click can change: the upload's counters, the local active emoji, the doc. */
  datatype ReactionState = ReactionState(
    counters: Counters,
    userReaction: Option<Emoji>,
    reactionDoc: Option<ReactionDoc>)

  /** A counter as `increment` sees it: a missing field counts as 0. */
  function Count(c: Counters, e: Emoji): int
  {
    if e in c then c[e] else 0
  }

  /** `updateDoc(uploadRef, {[`reactions.${e}`]: increment(d)})`. */
  function Bump(c: Counters, e: Emoji, d: int): (r: Counters)
    ensures Count(r, e) == Count(c, e) + d
    ensures forall x :: x != e ==> Count(r, x) == Count(c, x)
  {
    c[e := Count(c, e) + d]
  }

  /** Whether store call number `k` of this handler goes through. */
  predicate Succeeds(failAt: Option<nat>, k: nat)
  {
    failAt.None? || k < failAt.value
  }

  /**
   * `handleReaction(emoji)`: every awaited write that succeeded before a throw stays applied;
   * the local active emoji changes only once all writes of its branch succeeded.
   */
  function React(s: ReactionState, emoji: Emoji, userName: string, failAt: Option<nat>)
    : ReactionState
  {
    // call 0, only when switching away from another emoji
    var switching := s.userReaction.Some? && s.userReaction.value != emoji;
    if switching && !Succeeds(failAt, 0) then s
    else
      var c1 := if switching then Bump(s.counters, s.userReaction.value, -1) else s.counters;
      var k: nat := if switching then 1 else 0;
      if s.userReaction == Some(emoji) then
        if !Succeeds(failAt, k) then s.(counters := c1)
        else ReactionState(Bump(c1, emoji, -1), None, s.reactionDoc)
      else if !Succeeds(failAt, k) then s.(counters := c1)
      else
        var c2 := Bump(c1, emoji, 1);
        if !Succeeds(failAt, k + 1) then s.(counters := c2)
        else ReactionState(c2, Some(emoji), Some(ReactionDoc(emoji, userName)))
  }

  /** Switching from A to B: A down once, B up once, B active, every other counter unchanged. */
  lemma SwitchReaction(s: ReactionState, a: Emoji, b: Emoji, userName: string)
    requires s.userReaction == Some(a) && a != b
    ensures var r := React(s, b, userName, None);
      && Count(r.counters, a) == Count(s.counters, a) - 1
      && Count(r.counters, b) == Count(s.counters, b) + 1
      && (forall x :: x != a && x != b ==> Count(r.counters, x) == Count(s.counters, x))
      && r.userReaction == Some(b)
      && r.reactionDoc == Some(ReactionDoc(b, userName))
  {
  }

  /** Clicking the active emoji: its counter down once, nothing active, the doc left as it was. */
  lemma ToggleOff(s: ReactionState, e: Emoji, userName: string)
    requires s.userReaction == Some(e)
    ensures var r := React(s, e, userName, None);
      && Count(r.counters, e) == Count(s.counters, e) - 1
      && (forall x :: x != e ==> Count(r.counters, x) == Count(s.counters, x))
      && r.userReaction.None?
      && r.reactionDoc == s.reactionDoc
  {
  }

  /** With nothing active, clicking an emoji adds one to it and writes the reaction doc. */
  lemma AddReaction(s: ReactionState, e: Emoji, userName: string)
    requires s.userReaction.None?
    ensures var r := React(s, e, userName, None);
      && Count(r.counters, e) == Count(s.counters, e) + 1
      && (forall x :: x != e ==> Count(r.counters, x) == Count(s.counters, x))
      && r.userReaction == Some(e)
      && r.reactionDoc == Some(ReactionDoc(e, userName))
  {
  }

  /**
   * From no active reaction, the same emoji clicked twice brings every counter back and leaves
   * nothing active; the reaction doc written by the first click stays.
   */
  lemma ClickTwiceRestores(s: ReactionState, e: Emoji, userName: string)
    requires s.userReaction.None?
    ensures var r := React(React(s, e, userName, None), e, userName, None);
      && (forall x :: Count(r.counters, x) == Count(s.counters, x))
      && r.userReaction.None?
      && r.reactionDoc == Some(ReactionDoc(e, userName))
  {
    AddReaction(s, e, userName);
    ToggleOff(React(s, e, userName, None), e, userName);
  }

  /** A click touches at most the clicked emoji's counter and the previously active one's. */
  lemma OtherCountersUnchanged(s: ReactionState, e: Emoji, userName: string,
                               failAt: Option<nat>, x: Emoji)
    requires x != e && s.userReaction != Some(x)
    ensures Count(React(s, e, userName, failAt).counters, x) == Count(s.counters, x)
  {
    var switching := s.userReaction.Some? && s.userReaction.value != e;
    var c1 := if switching then Bump(s.counters, s.userReaction.value, -1) else s.counters;
    assert Count(c1, x) == Count(s.counters, x);
    var k: nat := if switching then 1 else 0;
    if switching && !Succeeds(failAt, 0) {
    } else if s.userReaction == Some(e) || !Succeeds(failAt, k) {
      assert Count(Bump(c1, e, -1), x) == Count(c1, x);
    } else {
      assert Count(Bump(c1, e, 1), x) == Count(c1, x);
    }
  }

  /** A store call that throws leaves the local active emoji as it was. */
  lemma FailureKeepsActiveEmoji(s: ReactionState, e: Emoji, userName: string, k: nat)
    requires k < CallsMade(s, e)
    ensures React(s, e, userName, Some(k)).userReaction == s.userReaction
  {
  }

  /** A fault index past the calls a click makes is no fault at all. */
  lemma LateFaultIsNoFault(s: ReactionState, e: Emoji, userName: string, k: nat)
    requires k >= CallsMade(s, e)
    ensures React(s, e, userName, Some(k)) == React(s, e, userName, None)
  {
  }

  /** How many store calls a click makes when none of them throws. */
  function CallsMade(s: ReactionState, e: Emoji): nat
  {
    var switching := s.userReaction.Some? && s.userReaction.value != e;
    (if switching then 1 else 0) + (if s.userReaction == Some(e) then 1 else 2)
  }

  /** If the first call throws, nothing changes at all. */
  lemma FirstCallFailsNoEffect(s: ReactionState, e: Emoji, userName: string)
    ensures React(s, e, userName, Some(0)) == s
  {
  }

  /** The card's reaction state and the upload's counters as the store holds them. */
  class ReactionButtons {
    var counters: Counters
    var userReaction: Option<Emoji>
    var reactionDoc: Option<ReactionDoc>

    function State(): ReactionState
      reads this
    {
      ReactionState(counters, userReaction, reactionDoc)
    }

    constructor (counters: Counters, reactionDoc: Option<ReactionDoc>)
      ensures State() == ReactionState(counters, None, reactionDoc)
    {
      this.counters := counters;
      this.userReaction := None;
      this.reactionDoc := reactionDoc;
    }

    /**
     * `handleReaction(emoji)`, step by step. Without a signed-in user the references cannot
     * be built and nothing happens.
     */
    method HandleReaction(currentUser: Option<User>, emoji: Emoji, failAt: Option<nat>)
      modifies this
      ensures currentUser.None? ==> State() == old(State())
      ensures currentUser.Some? ==>
        State() == React(old(State()), emoji, currentUser.value.displayName, failAt)
    {
      if currentUser.None? {
        return;
      }
      var call: nat := 0;
      if userReaction.Some? && userReaction.value != emoji {
        if !Succeeds(failAt, call) { return; }
        counters := Bump(counters, userReaction.value, -1);
        call := call + 1;
      }
      if userReaction == Some(emoji) {
        if !Succeeds(failAt, call) { return; }
        counters := Bump(counters, emoji, -1);
        userReaction := None;
      } else {
        if !Succeeds(failAt, call) { return; }
        counters := Bump(counters, emoji, 1);
        call := call + 1;
        if !Succeeds(failAt, call) { return; }
        reactionDoc := Some(ReactionDoc(emoji, currentUser.value.displayName));
        userReaction := Some(emoji);
      }
    }
  }

  // ---------------------------------------------------------------------------------------
  // Deleting a card

  /** `currentUser && upload.userId === currentUser.uid`. */
  predicate CanDelete(upload: Upload, currentUser: Option<User>)
  {
    currentUser.Some? && upload.userId == currentUser.value.uid
  }

  datatype DeleteReport = DeleteSucceeded | DeleteFailed

  /** What `handleDelete` did: the store calls it made and what it told the user. */
  datatype DeleteOutcome = DeleteOutcome(
    recordDeleted: bool,
    storageAttempted: bool,
    storageDeleted: bool,
    report: DeleteReport)

  /**
   * `handleDelete`: the record is deleted first; only then, for a non-link with a file URL,
   * the stored file, whose failure is swallowed.
   */
  function HandleDelete(upload: Upload, recordDeleteOk: bool, storageDeleteOk: bool)
    : (o: DeleteOutcome)
    ensures o.report == DeleteSucceeded <==> o.recordDeleted
    ensures o.storageAttempted ==> o.recordDeleted && upload.kind != "link"
    ensures o.storageDeleted ==> o.storageAttempted && storageDeleteOk
  {
    if !recordDeleteOk then DeleteOutcome(false, false, false, DeleteFailed)
    else
      var attempt := upload.kind != "link" && Truthy(upload.fileUrl);
      DeleteOutcome(true, attempt, attempt && storageDeleteOk, DeleteSucceeded)
  }

  /** A storage failure never turns a successful record delete into a failure. */
  lemma StorageFailureIsSwallowed(upload: Upload)
    ensures HandleDelete(upload, true, false).report == DeleteSucceeded
    ensures HandleDelete(upload, true, false).report == HandleDelete(upload, true, true).report
  {
  }

  /** The record goes exactly when its delete succeeds; the file follows it when there is one. */
  lemma DeleteOrder(upload: Upload, recordDeleteOk: bool, storageDeleteOk: bool)
    ensures var o := HandleDelete(upload, recordDeleteOk, storageDeleteOk);
      && o.recordDeleted == recordDeleteOk
      && (recordDeleteOk && upload.kind != "link" && Truthy(upload.fileUrl) ==> o.storageAttempted)
      && (o.storageAttempted && storageDeleteOk ==> o.storageDeleted)
  {
  }

  /**
   * The card's delete controls: `showDeleteDialog`, and whether the upload's record is still
   * in the store. `handleDelete` runs as one step, so `deleting`, which is true only while
   * its calls are pending, is not part of the state.
   */
  datatype DeleteState = DeleteState(dialogOpen: bool, recordPresent: bool)

  /** What a viewer does: press the delete button, cancel the dialog or confirm it. */
  datatype DeleteEvent =
    | PressDelete(viewer: Option<User>)
    | CancelDialog
    | ConfirmDialog(recordDeleteOk: bool, storageDeleteOk: bool)

  /** The button exists only when `canDelete`; pressing it opens the dialog. */
  function OnPressDelete(upload: Upload, s: DeleteState, viewer: Option<User>): DeleteState
  {
    if CanDelete(upload, viewer) then s.(dialogOpen := true) else s
  }

  /** `onConfirm={handleDelete}` of a dialog shown only while `isOpen`. */
  function OnConfirm(upload: Upload, s: DeleteState, recordDeleteOk: bool, storageDeleteOk: bool)
    : (DeleteState, Option<DeleteOutcome>)
  {
    if !s.dialogOpen then (s, None)
    else
      var o := HandleDelete(upload, recordDeleteOk, storageDeleteOk);
      (DeleteState(o.report == DeleteFailed, s.recordPresent && !o.recordDeleted), Some(o))
  }

  function OnDeleteEvent(upload: Upload, s: DeleteState, e: DeleteEvent): DeleteState
  {
    match e
    case PressDelete(viewer) => OnPressDelete(upload, s, viewer)
    case CancelDialog => s.(dialogOpen := false)
    case ConfirmDialog(recordOk, storageOk) => OnConfirm(upload, s, recordOk, storageOk).0
  }

  /** The state after a sequence of events. */
  function RunDelete(upload: Upload, s: DeleteState, events: seq<DeleteEvent>): DeleteState
    decreases |events|
  {
    if events == [] then s
    else RunDelete(upload, OnDeleteEvent(upload, s, events[0]), events[1..])
  }

  /**
   * If nobody who may delete the upload presses its button, nothing changes: a non-owner,
   * or a signed-out viewer, never opens the dialog and never deletes the record.
   */
  lemma {:induction false} NonOwnerNeverDeletes(upload: Upload, s: DeleteState,
                                                events: seq<DeleteEvent>)
    requires !s.dialogOpen
    requires forall i :: 0 <= i < |events| && events[i].PressDelete? ==>
      !CanDelete(upload, events[i].viewer)
    ensures RunDelete(upload, s, events) == s
    decreases |events|
  {
    if events != [] {
      assert OnDeleteEvent(upload, s, events[0]) == s;
      assert forall i :: 0 <= i < |events[1..]| ==> events[1..][i] == events[i + 1];
      NonOwnerNeverDeletes(upload, s, events[1..]);
    }
  }

  /** The owner's press and confirm delete the record; a failed delete keeps the dialog open. */
  lemma OwnerDeletes(upload: Upload, s: DeleteState, owner: User, storageDeleteOk: bool)
    requires upload.userId == owner.uid
    ensures RunDelete(upload, s, [PressDelete(Some(owner)), ConfirmDialog(true, storageDeleteOk)])
      == DeleteState(false, false)
    ensures RunDelete(upload, s, [PressDelete(Some(owner)), ConfirmDialog(false, storageDeleteOk)])
      == DeleteState(true, s.recordPresent)
  {
    var shown := s.(dialogOpen := true);
    assert OnDeleteEvent(upload, s, PressDelete(Some(owner))) == shown;
    forall recordOk: bool
      ensures RunDelete(upload, s, [PressDelete(Some(owner)), ConfirmDialog(recordOk, storageDeleteOk)])
        == OnConfirm(upload, shown, recordOk, storageDeleteOk).0
    {
      var events := [PressDelete(Some(owner)), ConfirmDialog(recordOk, storageDeleteOk)];
      var rest := [ConfirmDialog(recordOk, storageDeleteOk)];
      assert events[1..] == rest && rest[1..] == [];
      assert RunDelete(upload, s, events) == RunDelete(upload, shown, rest);
      assert RunDelete(upload, shown, rest) == OnDeleteEvent(upload, shown, rest[0]);
    }
  }

  /** The card's delete controls, updated in place. */
  class DeleteControls {
    const upload: Upload
    var dialogOpen: bool
    var recordPresent: bool

    function State(): DeleteState
      reads this
    {
      DeleteState(dialogOpen, recordPresent)
    }

    constructor (upload: Upload)
      ensures this.upload == upload && State() == DeleteState(false, true)
    {
      this.upload := upload;
      dialogOpen := false;
      recordPresent := true;
    }

    /** The delete button's `onClick`, for the viewer the card is rendered for. */
    method PressDelete(viewer: Option<User>)
      modifies this
      ensures State() == OnPressDelete(upload, old(State()), viewer)
    {
      if CanDelete(upload, viewer) {
        dialogOpen := true;
      }
    }

    /** The dialog's `onCancel`. */
    method Cancel()
      modifies this
      ensures State() == old(State()).(dialogOpen := false)
    {
      dialogOpen := false;
    }

    /** The dialog's `onConfirm`: `handleDelete`, when the dialog is shown. */
    method Confirm(recordDeleteOk: bool, storageDeleteOk: bool) returns (o: Option<DeleteOutcome>)
      modifies this
      ensures (State(), o) == OnConfirm(upload, old(State()), recordDeleteOk, storageDeleteOk)
    {
      if !dialogOpen {
        return None;
      }
      var outcome := HandleDelete(upload, recordDeleteOk, storageDeleteOk);
      if outcome.recordDeleted {
        recordPresent := false;
        dialogOpen := false;
      }
      o := Some(outcome);
    }
  }

  // ---------------------------------------------------------------------------------------
  // Rendering rules

  datatype TypeConfig = TypeConfig(color: string, caption: string)  // `caption` is the `label`

  /** `FILE_TYPES` of the card (icons left out). */
  function FileTypes(): map<string, TypeConfig>
  {
    map[
      "audio" := TypeConfig("#FF6B6B", "Audio"),
      "link" := TypeConfig("#4ECDC4", "Link"),
      "video" := TypeConfig("#95E77E", "Video"),
      "image" := TypeConfig("#FFE66D", "Image"),
      "document" := TypeConfig("#A8E6CF", "Document"),
      "other" := TypeConfig("#C7CEEA", "Other")]
  }

  /** `FILE_TYPES[upload.type] || FILE_TYPES.other`. */
  function TypeConfigFor(kind: string): (r: TypeConfig)
    ensures r in FileTypes().Values
    ensures r.caption == "Other" <==> kind !in FileTypes() || kind == "other"
  {
    var types := FileTypes();
    if kind in types then types[kind] else types["other"]
  }

  /** `upload.reactions?.[emoji] || 0`. */
  function DisplayedCount(reactions: Option<Counters>, e: Emoji): (r: int)
    ensures reactions.None? ==> r == 0
    ensures reactions.Some? ==> r == Count(reactions.value, e)
  {
    if reactions.Some? && e in reactions.value && reactions.value[e] != 0 then reactions.value[e]
    else 0
  }
}
