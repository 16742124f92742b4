/** The message editor of src/components/EditorPanel.jsx: a form for one
    message, a list of messages it appends to and deletes from, and an edit
    mode in which every form change is applied live to the message being
    edited, with a snapshot that Cancel puts back. */
module Editor {
  import opened Common

  /** A message id: a millisecond time stamp, or the draft's tag 'draft'. */
  datatype MessageId = Stamp(ms: int) | DraftTag

  /** A chat message; a missing image is the empty string. */
  datatype Message = Message(id: MessageId, text: string, image: string, time: string, isSender: bool, status: string)

  /** The form's fields. */
  datatype Form = Form(text: string, image: string, time: string, isSender: bool, status: string)

  /** One live change to a message field, `{...msg, [field]: value}`. */
  datatype Edit = SetText(text: string) | SetImage(image: string) | SetTime(time: string)
                | SetSender(isSender: bool) | SetStatus(status: string)

  /** `!s.trim()`. */
  predicate IsBlank(s: string)
  {
    forall i :: 0 <= i < |s| ==> IsJsSpace(s[i])
  }

  /** `if (editingId)`: no id, and the numeric id 0, are falsy. */
  predicate IsTruthyId(id: Option<MessageId>)
  {
    id.Some? && id.value != Stamp(0)
  }

  /** The message the form describes; an empty time takes the clock's. */
  function Composed(id: MessageId, form: Form, clock: string): Message
  {
    Message(id, form.text, form.image, if form.time != "" then form.time else clock, form.isSender, form.status)
  }

  /** The draft effect's value while not editing: nothing for a blank form,
      otherwise the form as a message with id 'draft'. */
  function DraftOf(form: Form, clock: string): Option<Message>
  {
    if IsBlank(form.text) && IsBlank(form.image) then None else Some(Composed(DraftTag, form, clock))
  }

  /** The preview draft is exactly the message Add would append, apart from
      its id, and there is one exactly when Add would append one. */
  lemma DraftPreviewsAdd(form: Form, clock: string, now: int)
    ensures DraftOf(form, clock).None? <==> IsBlank(form.text) && IsBlank(form.image)
    ensures DraftOf(form, clock).Some? ==>
              DraftOf(form, clock).value.id == DraftTag
              && DraftOf(form, clock).value.(id := Stamp(now)) == Composed(Stamp(now), form, clock)
  {
  }

  function ApplyEdit(m: Message, e: Edit): (r: Message)
    ensures r.id == m.id
  {
    match e
    case SetText(t) => m.(text := t)
    case SetImage(i) => m.(image := i)
    case SetTime(t) => m.(time := t)
    case SetSender(b) => m.(isSender := b)
    case SetStatus(s) => m.(status := s)
  }

  /** A live edit changes its own field and no other. */
  lemma EditChangesOneField(m: Message, e: Edit)
    ensures ApplyEdit(m, e).id == m.id
    ensures ApplyEdit(m, e).text == (if e.SetText? then e.text else m.text)
    ensures ApplyEdit(m, e).image == (if e.SetImage? then e.image else m.image)
    ensures ApplyEdit(m, e).time == (if e.SetTime? then e.time else m.time)
    ensures ApplyEdit(m, e).isSender == (if e.SetSender? then e.isSender else m.isSender)
    ensures ApplyEdit(m, e).status == (if e.SetStatus? then e.status else m.status)
  {
  }

  /** `prev.map(msg => msg.id === id ? {...msg, [field]: value} : msg)`. */
  function LiveUpdated(msgs: seq<Message>, id: MessageId, e: Edit): (r: seq<Message>)
    ensures |r| == |msgs|
    ensures forall i :: 0 <= i < |msgs| ==> r[i].id == msgs[i].id
    ensures forall i :: 0 <= i < |msgs| && msgs[i].id != id ==> r[i] == msgs[i]
    ensures forall i :: 0 <= i < |msgs| && msgs[i].id == id ==> r[i] == ApplyEdit(msgs[i], e)
  {
    seq(|msgs|, i requires 0 <= i < |msgs| => if msgs[i].id == id then ApplyEdit(msgs[i], e) else msgs[i])
  }

  /** A sequence of live edits, oldest first. */
  function LiveUpdatedAll(msgs: seq<Message>, id: MessageId, edits: seq<Edit>): seq<Message>
    decreases |edits|
  {
    if edits == [] then msgs else LiveUpdatedAll(LiveUpdated(msgs, id, edits[0]), id, edits[1..])
  }

  lemma {:induction false} LiveUpdatedAllSnoc(msgs: seq<Message>, id: MessageId, edits: seq<Edit>, e: Edit)
    ensures LiveUpdatedAll(msgs, id, edits + [e]) == LiveUpdated(LiveUpdatedAll(msgs, id, edits), id, e)
    decreases |edits|
  {
    if edits == [] {
      assert [e][1..] == [];
    } else {
      assert (edits + [e])[1..] == edits[1..] + [e];
      LiveUpdatedAllSnoc(LiveUpdated(msgs, id, edits[0]), id, edits[1..], e);
    }
  }

  /** Live edits keep the list's length and ids and touch no message whose
      id differs from the edited one. */
  lemma {:induction false} LiveUpdatesKeepOthers(msgs: seq<Message>, id: MessageId, edits: seq<Edit>)
    ensures |LiveUpdatedAll(msgs, id, edits)| == |msgs|
    ensures forall i :: 0 <= i < |msgs| ==> LiveUpdatedAll(msgs, id, edits)[i].id == msgs[i].id
    ensures forall i :: 0 <= i < |msgs| && msgs[i].id != id ==> LiveUpdatedAll(msgs, id, edits)[i] == msgs[i]
    decreases |edits|
  {
    if edits != [] {
      LiveUpdatesKeepOthers(LiveUpdated(msgs, id, edits[0]), id, edits[1..]);
    }
  }

  /** `prev.map(msg => msg.id === id ? original : msg)`. */
  function Restored(msgs: seq<Message>, id: MessageId, original: Message): (r: seq<Message>)
    ensures |r| == |msgs|
    ensures forall i :: 0 <= i < |msgs| && msgs[i].id != id ==> r[i] == msgs[i]
    ensures forall i :: 0 <= i < |msgs| && msgs[i].id == id ==> r[i] == original
  {
    seq(|msgs|, i requires 0 <= i < |msgs| => if msgs[i].id == id then original else msgs[i])
  }

  predicate UniqueIds(msgs: seq<Message>)
  {
    forall i, j :: 0 <= i < j < |msgs| ==> msgs[i].id != msgs[j].id
  }

  /** Edit, any live edits, Cancel: the list is back to what it was, provided
      no other message shares the edited message's id. */
  lemma {:induction false} CancelRestoresOriginal(msgs: seq<Message>, k: nat, edits: seq<Edit>)
    requires k < |msgs| && UniqueIds(msgs)
    ensures Restored(LiveUpdatedAll(msgs, msgs[k].id, edits), msgs[k].id, msgs[k]) == msgs
  {
    var id := msgs[k].id;
    var live := LiveUpdatedAll(msgs, id, edits);
    LiveUpdatesKeepOthers(msgs, id, edits);
    var back := Restored(live, id, msgs[k]);
    forall i | 0 <= i < |msgs|
      ensures back[i] == msgs[i]
    {
      if i != k {
        assert msgs[i].id != id by {
          if i < k { assert msgs[i].id != msgs[k].id; } else { assert msgs[k].id != msgs[i].id; }
        }
      }
    }
  }

  /** `messages.filter(msg => msg.id !== id)`. */
  function WithoutId(msgs: seq<Message>, id: MessageId): (r: seq<Message>)
    ensures |r| <= |msgs|
    ensures forall m :: m in r <==> m in msgs && m.id != id
  {
    if msgs == [] then []
    else (if msgs[0].id != id then [msgs[0]] else []) + WithoutId(msgs[1..], id)
  }

  /** Deleting distributes over concatenation, so the survivors keep their
      order. */
  lemma {:induction false} WithoutIdOverConcat(a: seq<Message>, b: seq<Message>, id: MessageId)
    ensures WithoutId(a + b, id) == WithoutId(a, id) + WithoutId(b, id)
  {
    if a == [] {
      assert a + b == b;
    } else {
      assert (a + b)[1..] == a[1..] + b;
      WithoutIdOverConcat(a[1..], b, id);
    }
  }

  /** Deleting an id no message has changes nothing. */
  lemma {:induction false} WithoutAbsentId(msgs: seq<Message>, id: MessageId)
    requires forall i :: 0 <= i < |msgs| ==> msgs[i].id != id
    ensures WithoutId(msgs, id) == msgs
  {
    if msgs != [] {
      WithoutAbsentId(msgs[1..], id);
      assert msgs == [msgs[0]] + msgs[1..];
    }
  }

  /** The panel's state, and the two pieces of the page's state it writes:
      the message list and the draft shown in the preview. */
  class EditorPanel {
    var messages: seq<Message>
    var draft: Option<Message>
    var messageInput: string
    var messageImage: string
    var isSender: bool
    var messageTime: string
    var messageStatus: string
    var editingId: Option<MessageId>
    var originalMessage: Option<Message>

    /** While editing, the snapshot is a copy of the edited message. */
    ghost predicate Valid()
      reads this
    {
      (editingId.Some? <==> originalMessage.Some?)
      && (editingId.Some? ==> originalMessage.value.id == editingId.value)
    }

    function CurrentForm(): Form
      reads this
    {
      Form(messageInput, messageImage, messageTime, isSender, messageStatus)
    }

    /** The form's defaults, restored by `resetForm`. */
    ghost predicate FormIsReset()
      reads this
    {
      && messageInput == "" && messageImage == "" && messageTime == ""
      && !isSender && messageStatus == "read"
      && editingId.None? && originalMessage.None? && draft.None?
    }

    constructor (messages: seq<Message>)
      ensures Valid() && FormIsReset() && this.messages == messages
    {
      this.messages := messages;
      draft := None;
      messageInput, messageImage, messageTime := "", "", "";
      isSender := false;
      messageStatus := "read";
      editingId, originalMessage := None, None;
    }

    /** `resetForm`. */
    method ResetForm()
      modifies this
      ensures Valid() && FormIsReset() && messages == old(messages)
    {
      messageInput := "";
      messageImage := "";
      isSender := false;
      messageTime := "";
      messageStatus := "read";
      editingId := None;
      originalMessage := None;
      draft := None;
    }

    /** `handleAddMessage`: a blank form adds nothing; otherwise the form is
      appended as one message with id `now` and the form is reset. */
    method AddMessage(now: int, clock: string)
      modifies this
      ensures IsBlank(old(messageInput)) && IsBlank(old(messageImage)) ==> unchanged(this)
      ensures !(IsBlank(old(messageInput)) && IsBlank(old(messageImage))) ==>
        && messages == old(messages) + [Composed(Stamp(now), old(CurrentForm()), clock)]
        && Valid() && FormIsReset()
    {
      if IsBlank(messageInput) && IsBlank(messageImage) {
        return;
      }
      var newMessage := Composed(Stamp(now), CurrentForm(), clock);
      messages := messages + [newMessage];
      ResetForm();
    }

    /** `handleEditMessage`: enter edit mode on `msg`, keep a copy of it, load
      it into the form and clear the draft. */
    method EditMessage(msg: Message)
      modifies this
      ensures Valid()
      ensures editingId == Some(msg.id) && originalMessage == Some(msg)
      ensures CurrentForm() == Form(msg.text, msg.image, msg.time, msg.isSender, msg.status)
      ensures messages == old(messages) && draft.None?
    {
      editingId := Some(msg.id);
      originalMessage := Some(msg);
      messageInput := msg.text;
      messageImage := msg.image;
      messageTime := msg.time;
      isSender := msg.isSender;
      messageStatus := msg.status;
      draft := None;
    }

    /** `updateLiveMessage`: apply `e` to the message with the edited id. */
    method UpdateLiveMessage(e: Edit)
      modifies this`messages
      ensures messages == if editingId.Some? then LiveUpdated(old(messages), editingId.value, e) else old(messages)
    {
      if editingId.Some? {
        messages := LiveUpdated(messages, editingId.value, e);
      }
    }

    /** `handleInputChange` for the text, image and time inputs: set the
      form's field, and when editing apply the change live. */
    method InputChange(e: Edit)
      modifies this
      ensures messageInput == (if e.SetText? then e.text else old(messageInput))
      ensures messageImage == (if e.SetImage? then e.image else old(messageImage))
      ensures messageTime == (if e.SetTime? then e.time else old(messageTime))
      ensures isSender == old(isSender) && messageStatus == old(messageStatus) && draft == old(draft)
      ensures editingId == old(editingId) && originalMessage == old(originalMessage)
      ensures messages == if IsTruthyId(editingId) then LiveUpdated(old(messages), editingId.value, e) else old(messages)
    {
      match e {
        case SetText(t) => messageInput := t;
        case SetImage(i) => messageImage := i;
        case SetTime(t) => messageTime := t;
        case SetSender(_) =>
        case SetStatus(_) =>
      }
      if IsTruthyId(editingId) {
        UpdateLiveMessage(e);
      }
    }

    /** The Sender/Receiver toggle. */
    method ChooseSender(b: bool)
      modifies this
      ensures isSender == b
      ensures messageInput == old(messageInput) && messageImage == old(messageImage) && messageTime == old(messageTime)
      ensures messageStatus == old(messageStatus) && draft == old(draft)
      ensures editingId == old(editingId) && originalMessage == old(originalMessage)
      ensures messages == if IsTruthyId(editingId) then LiveUpdated(old(messages), editingId.value, SetSender(b)) else old(messages)
    {
      isSender := b;
      if IsTruthyId(editingId) {
        UpdateLiveMessage(SetSender(b));
      }
    }

    /** The status selector. */
    method ChooseStatus(s: string)
      modifies this
      ensures messageStatus == s
      ensures messageInput == old(messageInput) && messageImage == old(messageImage) && messageTime == old(messageTime)
      ensures isSender == old(isSender) && draft == old(draft)
      ensures editingId == old(editingId) && originalMessage == old(originalMessage)
      ensures messages == if IsTruthyId(editingId) then LiveUpdated(old(messages), editingId.value, SetStatus(s)) else old(messages)
    {
      messageStatus := s;
      if IsTruthyId(editingId) {
        UpdateLiveMessage(SetStatus(s));
      }
    }

    /** `handleCancelEdit`: put the snapshot back in place of the edited
      message, then reset the form. */
    method CancelEdit()
      requires Valid()
      modifies this
      ensures messages == if old(editingId).Some? then Restored(old(messages), old(editingId).value, old(originalMessage).value)
                          else old(messages)
      ensures Valid() && FormIsReset()
    {
      if editingId.Some? {
        messages := Restored(messages, editingId.value, originalMessage.value);
      }
      ResetForm();
    }

    /** `handleDoneEditing`: the live edits stay. */
    method DoneEditing()
      modifies this
      ensures messages == old(messages) && Valid() && FormIsReset()
    {
      ResetForm();
    }

    /** `handleDeleteMessage`: drop every message with `id`, and leave edit
      mode when it was that message being edited. */
    method DeleteMessage(id: MessageId)
      requires Valid()
      modifies this
      ensures messages == WithoutId(old(messages), id)
      ensures Valid()
      ensures old(editingId) == Some(id) ==> FormIsReset()
      ensures old(editingId) != Some(id) ==>
        && CurrentForm() == old(CurrentForm()) && draft == old(draft)
        && editingId == old(editingId) && originalMessage == old(originalMessage)
    {
      messages := WithoutId(messages, id);
      if editingId == Some(id) {
        ResetForm();
      }
    }

    /** The draft effect: while editing (a truthy id) it leaves the draft
      alone, otherwise it publishes the form as the draft, or no draft for a
      blank form. */
    method RefreshDraft(clock: string)
      modifies this`draft
      ensures draft == if IsTruthyId(editingId) then old(draft) else DraftOf(CurrentForm(), clock)
    {
      if IsTruthyId(editingId) {
        return;
      }
      draft := DraftOf(CurrentForm(), clock);
    }

    /** Edit message `k`, make any sequence of live changes through the
      inputs, then Cancel: the list is back to what it was. */
    method EditThenCancel(k: nat, edits: seq<Edit>)
      requires Valid() && k < |messages| && UniqueIds(messages)
      modifies this
      ensures messages == old(messages)
      ensures Valid() && FormIsReset()
    {
      ghost var start := messages;
      EditMessage(messages[k]);
      ghost var applied: seq<Edit> := [];
      var i := 0;
      while i < |edits|
        invariant 0 <= i <= |edits|
        invariant Valid() && editingId == Some(start[k].id) && originalMessage == Some(start[k])
        invariant messages == LiveUpdatedAll(start, start[k].id, applied)
      {
        var e := edits[i];
        match e {
          case SetText(_) => InputChange(e);
          case SetImage(_) => InputChange(e);
          case SetTime(_) => InputChange(e);
          case SetSender(b) => ChooseSender(b);
          case SetStatus(s) => ChooseStatus(s);
        }
        if IsTruthyId(editingId) {
          LiveUpdatedAllSnoc(start, start[k].id, applied, e);
          applied := applied + [e];
        }
        i := i + 1;
      }
      CancelEdit();
      CancelRestoresOriginal(start, k, applied);
    }
  }
}
