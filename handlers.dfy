/** The reference semantics of the four handlers and of `create_ticket`:
    each maps the state before an update to the state after it, the calls
    made and the exception that escaped. */
module Handlers {
  import opened Optional
  import opened Model
  import opened Card

  const WelcomePrompt := "Добро пожаловать! Введите ваше имя и фамилию:"
  const PlacePrompt := "Теперь введите место, где вы сидите в офисе:"
  const ProblemPrompt := "Регистрация завершена ✅\nНапишите описание вашей проблемы:"
  const PhotoQuestion := "Хотите прикрепить фото?"
  const AddPhoto := "add_photo"
  const SkipPhoto := "skip_photo"
  const PhotoChoice := [CallbackButton("Прикрепить фото", AddPhoto), CallbackButton("Пропустить", SkipPhoto)]
  const NotUnderstood := "Не понял. Напишите /start чтобы начать заново."
  const PhotoExpected := "Ожидается фото. Напишите /start, чтобы начать заново."
  const PhotoErrorPrefix := "Ошибка при обработке фото: "
  const SendPhotoPrompt := "Отправьте фото вашей проблемы."

  /** Which kind of update `create_ticket` runs from: a message (a photo)
      or a button press, for which `update.message` is None. */
  datatype Origin = FromMessage | FromCallback

  /** The two drafts agree on every field except the step. */
  predicate SameFields(a: Draft, b: Draft) {
    a.name == b.name && a.place == b.place && a.problem == b.problem && a.photoId == b.photoId
  }

  /** The key whose `[...]` read raises in `create_ticket`: the dict
      literal reads "name", "place" and "problem" in that order, so it is
      the first of them the draft lacks. */
  function FirstMissingKey(d: Draft): (k: string)
    requires !Complete(d)
    ensures k == "name" <==> d.name.None?
    ensures k == "place" <==> d.name.Some? && d.place.None?
    ensures k == "problem" <==> d.name.Some? && d.place.Some? && d.problem.None?
  {
    if d.name.None? then "name" else if d.place.None? then "place" else "problem"
  }

  /** `str(e)` of the exception; a KeyError prints its key in quotes. */
  function FaultText(f: Fault): (r: string)
    ensures f.KeyError? ==>
      |r| == |f.key| + 2 && r[0] == '\'' && r[|r| - 1] == '\'' && r[1..|r| - 1] == f.key
  {
    match f
    case KeyError(k) => "'" + k + "'"
    case NoMessage => "'NoneType' object has no attribute 'reply_text'"
  }

  /** The update neither stores a ticket nor posts a card. */
  predicate KeepsTickets(s: State, r: Effect) {
    r.state.tickets == s.tickets && CountPosts(r.outputs) == 0
  }

  /** `start`: replies with the welcome prompt and sets the step to "name",
      keeping every other draft field. */
  function OnStart(s: State, u: UserId): (r: Effect)
    ensures KeepsTickets(s, r) && r.fault.None?
    ensures DraftOf(r.state, u).step == Some(Name)
    ensures SameFields(DraftOf(r.state, u), DraftOf(s, u))
    ensures r.outputs == [Reply(WelcomePrompt)]
  {
    var d := DraftOf(s, u);
    Effect(SetDraft(s, u, d.(step := Some(Name))), [Reply(WelcomePrompt)], None)
  }

  /** `text_handler`: the step decides where the text goes. */
  function OnText(s: State, u: UserId, text: string): (r: Effect)
    ensures KeepsTickets(s, r) && r.fault.None?
    ensures var d, d' := DraftOf(s, u), DraftOf(r.state, u);
      d.step == Some(Name) ==>
        d' == d.(name := Some(text), step := Some(Place)) && r.outputs == [Reply(PlacePrompt)]
    ensures var d, d' := DraftOf(s, u), DraftOf(r.state, u);
      d.step == Some(Place) ==>
        d' == d.(place := Some(text), step := Some(Problem)) && r.outputs == [Reply(ProblemPrompt)]
    ensures var d, d' := DraftOf(s, u), DraftOf(r.state, u);
      d.step == Some(Problem) ==>
        d' == d.(problem := Some(text)) && r.outputs == [ReplyWithButtons(PhotoQuestion, PhotoChoice)]
    ensures var d := DraftOf(s, u);
      d.step !in {Some(Name), Some(Place), Some(Problem)} ==>
        r.state == s && r.outputs == [Reply(NotUnderstood)]
  {
    var d := DraftOf(s, u);
    match d.step
    case Some(Name) =>
      Effect(SetDraft(s, u, d.(name := Some(text), step := Some(Place))), [Reply(PlacePrompt)], None)
    case Some(Place) =>
      Effect(SetDraft(s, u, d.(place := Some(text), step := Some(Problem))), [Reply(ProblemPrompt)], None)
    case Some(Problem) =>
      Effect(SetDraft(s, u, d.(problem := Some(text))), [ReplyWithButtons(PhotoQuestion, PhotoChoice)], None)
    case _ =>
      Effect(s, [Reply(NotUnderstood)], None)
  }

  /** The ticket `create_ticket` builds from a complete draft. */
  function NewTicket(d: Draft, u: UserId): (t: Ticket)
    requires Complete(d)
    ensures t.user == d.name.value && t.place == d.place.value && t.desc == d.problem.value
    ensures t.photo == d.photoId && t.status == NewStatus && t.userId == u
  {
    Ticket(d.name.value, d.place.value, d.problem.value, d.photoId, NewStatus, u)
  }

  /** `create_ticket`: stores `NewTicket` under `len(tickets) + 1`, posts
      the card to the channel, then confirms to the author and clears the
      draft. From a button press the confirmation raises (there is no
      `update.message`), so the draft is kept. A missing draft key raises
      before anything happens. */
  function CreateTicket(s: State, u: UserId, origin: Origin): (r: Effect)
    ensures var d := DraftOf(s, u);
      !Complete(d) ==>
        r.state == s && r.outputs == [] && r.fault == Some(KeyError(FirstMissingKey(d)))
    ensures var d, id := DraftOf(s, u), |s.tickets| + 1;
      Complete(d) ==>
        r.state.tickets == s.tickets[id := NewTicket(d, u)]
        && |r.outputs| >= 1 && r.outputs[0] == ChannelPost(id, NewTicket(d, u))
        && CountPosts(r.outputs) == 1
    ensures var d, id := DraftOf(s, u), |s.tickets| + 1;
      Complete(d) && origin == FromMessage ==>
        r.fault.None? && DraftOf(r.state, u) == EmptyDraft
        && r.outputs == [ChannelPost(id, NewTicket(d, u)), Reply(Confirmation(id))]
    ensures var d := DraftOf(s, u);
      Complete(d) && origin == FromCallback ==>
        r.fault == Some(NoMessage) && DraftOf(r.state, u) == d && |r.outputs| == 1
  {
    var d := DraftOf(s, u);
    if d.name.None? then Effect(s, [], Some(KeyError("name")))
    else if d.place.None? then Effect(s, [], Some(KeyError("place")))
    else if d.problem.None? then Effect(s, [], Some(KeyError("problem")))
    else
      var id := |s.tickets| + 1;
      var t := NewTicket(d, u);
      var stored := s.(tickets := s.tickets[id := t]);
      var post := ChannelPost(id, t);
      match origin
      case FromMessage =>
        CountPostsPair(post, Reply(Confirmation(id)));
        Effect(SetDraft(stored, u, EmptyDraft), [post, Reply(Confirmation(id))], None)
      case FromCallback =>
        Effect(stored, [post], Some(NoMessage))
  }

  /** The `try` block of `photo_handler`: store `photo_id`, create the
      ticket, and report any exception to the user instead of raising it. */
  function SavePhotoAndCreate(s: State, u: UserId, fileId: string): (r: Effect)
    ensures r.fault.None?
    ensures var d := DraftOf(s, u).(photoId := Some(fileId));
      Complete(d) ==>
        var id, t := |s.tickets| + 1, NewTicket(d, u);
        r.state.tickets == s.tickets[id := t] && t.photo == Some(fileId)
        && DraftOf(r.state, u) == EmptyDraft
        && r.outputs == [ChannelPost(id, t), Reply(Confirmation(id))]
    ensures var d := DraftOf(s, u).(photoId := Some(fileId));
      !Complete(d) ==>
        r.state.tickets == s.tickets && DraftOf(r.state, u) == d
        && r.outputs == [Reply(PhotoErrorPrefix + FaultText(KeyError(FirstMissingKey(d))))]
        && CountPosts(r.outputs) == 0
  {
    var withPhoto := SetDraft(s, u, DraftOf(s, u).(photoId := Some(fileId)));
    var c := CreateTicket(withPhoto, u, FromMessage);
    if c.fault.None? then c
    else
      var reply := Reply(PhotoErrorPrefix + FaultText(c.fault.value));
      assert c.outputs + [reply] == [reply];
      Effect(c.state, c.outputs + [reply], None)
  }

  /** `photo_handler`: only in step "waiting_photo" and with at least one
      size does it go on, with the last (largest) size's `file_id`. */
  function OnPhoto(s: State, u: UserId, fileIds: seq<string>): (r: Effect)
    ensures var d := DraftOf(s, u);
      !(d.step == Some(WaitingPhoto) && |fileIds| > 0) ==>
        r.state == s && r.fault.None? && r.outputs == [Reply(PhotoExpected)]
    ensures var d := DraftOf(s, u);
      d.step == Some(WaitingPhoto) && |fileIds| > 0 ==>
        r == SavePhotoAndCreate(s, u, fileIds[|fileIds| - 1])
  {
    var d := DraftOf(s, u);
    if d.step == Some(WaitingPhoto) && |fileIds| > 0 then
      SavePhotoAndCreate(s, u, fileIds[|fileIds| - 1])
    else
      Effect(s, [Reply(PhotoExpected)], None)
  }

  /** `button_handler`: answers the callback, then "add_photo" moves to
      "waiting_photo" (whatever the step was), "skip_photo" creates the
      ticket, and any other data does nothing more. */
  function OnButton(s: State, u: UserId, data: string): (r: Effect)
    ensures |r.outputs| >= 1 && r.outputs[0] == AnswerCallback
    ensures data == AddPhoto ==>
      KeepsTickets(s, r) && r.fault.None?
      && DraftOf(r.state, u) == DraftOf(s, u).(step := Some(WaitingPhoto))
      && r.outputs == [AnswerCallback, EditMessage(SendPhotoPrompt)]
    ensures data == SkipPhoto ==>
      var c := CreateTicket(s, u, FromCallback);
      r.state == c.state && r.fault == c.fault && r.outputs == [AnswerCallback] + c.outputs
    ensures data != AddPhoto && data != SkipPhoto ==>
      r.state == s && r.fault.None? && r.outputs == [AnswerCallback]
  {
    if data == AddPhoto then
      CountPostsPair(AnswerCallback, EditMessage(SendPhotoPrompt));
      Effect(SetDraft(s, u, DraftOf(s, u).(step := Some(WaitingPhoto))),
             [AnswerCallback, EditMessage(SendPhotoPrompt)], None)
    else if data == SkipPhoto then
      var c := CreateTicket(s, u, FromCallback);
      CountPostsAppend([AnswerCallback], c.outputs);
      c.(outputs := [AnswerCallback] + c.outputs)
    else
      Effect(s, [AnswerCallback], None)
  }

  /** The handler registration: `/start`, text that is not a command, a
      photo, and any button press, each to its handler. Only "skip_photo"
      lets an exception escape: `photo_handler` catches its own. */
  function Handle(s: State, upd: Update): (r: Effect)
    ensures r.fault.Some? ==> upd.event == Button(SkipPhoto)
  {
    match upd.event
    case Start => OnStart(s, upd.sender)
    case Text(text) => OnText(s, upd.sender, text)
    case Photo(fileIds) => OnPhoto(s, upd.sender, fileIds)
    case Button(data) => OnButton(s, upd.sender, data)
  }

  /** "add_photo" followed by a photo, from a complete draft: the ticket
      is stored with the last size's file id, the card and the confirmation
      go out, and the draft is cleared. */
  lemma AddPhotoThenPhoto(s: State, u: UserId, sizes: seq<string>)
    requires Complete(DraftOf(s, u))
    requires |sizes| > 0
    ensures var e1 := OnButton(s, u, AddPhoto);
      var e2 := OnPhoto(e1.state, u, sizes);
      var id := |s.tickets| + 1;
      var t := NewTicket(DraftOf(s, u).(photoId := Some(sizes[|sizes| - 1])), u);
      e1.outputs == [AnswerCallback, EditMessage(SendPhotoPrompt)]
      && e2.state.tickets == s.tickets[id := t] && DraftOf(e2.state, u) == EmptyDraft
      && e2.outputs == [ChannelPost(id, t), Reply(Confirmation(id))]
  {
    var e1 := OnButton(s, u, AddPhoto);
    assert e1.state.tickets == s.tickets;
    assert DraftOf(e1.state, u) == DraftOf(s, u).(step := Some(WaitingPhoto));
  }

  /** What every update keeps: only the sender's draft may change, at most
      one card is posted, and on a dense table at most one ticket is stored,
      at the next number, with none of the others changed. */
  ghost predicate KeepsTable(s: State, r: Effect, u: UserId) {
    OthersUnchanged(s, r.state, u) && CountPosts(r.outputs) <= 1
    && (KeysDense(s.tickets) ==>
          KeysDense(r.state.tickets) && Extends(s.tickets, r.state.tickets)
          && |r.state.tickets| == |s.tickets| + CountPosts(r.outputs))
  }

  /** `create_ticket` touches only the author's draft; on a dense table
      the number it uses is free, the table stays dense, no stored ticket
      changes, and one ticket is stored per card posted. */
  lemma CreateTicketKeepsTable(s: State, u: UserId, origin: Origin)
    ensures KeepsTable(s, CreateTicket(s, u, origin), u)
    ensures KeysDense(s.tickets) ==> |s.tickets| + 1 !in s.tickets
  {
    var d := DraftOf(s, u);
    if Complete(d) {
      InsertNextKeepsDense(s.tickets, NewTicket(d, u));
    }
  }

  lemma StartKeepsTable(s: State, u: UserId)
    ensures KeepsTable(s, OnStart(s, u), u)
  {
  }

  lemma TextKeepsTable(s: State, u: UserId, text: string)
    ensures KeepsTable(s, OnText(s, u, text), u)
  {
  }

  lemma PhotoKeepsTable(s: State, u: UserId, fileIds: seq<string>)
    ensures KeepsTable(s, OnPhoto(s, u, fileIds), u)
  {
    var d := DraftOf(s, u);
    if d.step == Some(WaitingPhoto) && |fileIds| > 0 {
      var fileId := fileIds[|fileIds| - 1];
      var withPhoto := SetDraft(s, u, d.(photoId := Some(fileId)));
      CreateTicketKeepsTable(withPhoto, u, FromMessage);
      assert OnPhoto(s, u, fileIds) == SavePhotoAndCreate(s, u, fileId);
    }
  }

  lemma ButtonKeepsTable(s: State, u: UserId, data: string)
    ensures KeepsTable(s, OnButton(s, u, data), u)
  {
    if data == SkipPhoto {
      CreateTicketKeepsTable(s, u, FromCallback);
      CountPostsAppend([AnswerCallback], CreateTicket(s, u, FromCallback).outputs);
    }
  }

  /** Whatever the update, it keeps the table as `KeepsTable` says. */
  lemma HandleKeepsTable(s: State, upd: Update)
    ensures KeepsTable(s, Handle(s, upd), upd.sender)
  {
    match upd.event
    case Start => StartKeepsTable(s, upd.sender);
    case Text(text) => TextKeepsTable(s, upd.sender, text);
    case Photo(fileIds) => PhotoKeepsTable(s, upd.sender, fileIds);
    case Button(data) => ButtonKeepsTable(s, upd.sender, data);
  }
}
