/** Sequences of updates: the bot handles them one after another, and an
    exception escaping one handler does not stop it from handling the next.
    These lemmas state what holds of every run and what the two ways of
    submitting a ticket produce. */
module Traces {
  import opened Optional
  import opened Model
  import opened Card
  import opened Handlers

  datatype Trace = Trace(state: State, outputs: seq<Output>)

  /** The updates handled one after another by `step`. */
  function RunWith(step: (State, Update) -> Effect, s: State, us: seq<Update>): Trace
    decreases |us|
  {
    if us == [] then Trace(s, [])
    else
      var e := step(s, us[0]);
      var rest := RunWith(step, e.state, us[1..]);
      Trace(rest.state, e.outputs + rest.outputs)
  }

  function Run(s: State, us: seq<Update>): Trace {
    RunWith(Handle, s, us)
  }

  /** One user sending each of `texts` in turn. */
  function TextsFrom(u: UserId, texts: seq<string>): (us: seq<Update>)
    ensures |us| == |texts|
    ensures forall i :: 0 <= i < |us| ==> us[i] == Update(u, Text(texts[i]))
  {
    if texts == [] then [] else [Update(u, Text(texts[0]))] + TextsFrom(u, texts[1..])
  }

  lemma {:induction false} RunWithAppend(step: (State, Update) -> Effect, s: State,
                                         a: seq<Update>, b: seq<Update>)
    ensures var mid := RunWith(step, s, a);
      RunWith(step, s, a + b) == Trace(RunWith(step, mid.state, b).state,
                                       mid.outputs + RunWith(step, mid.state, b).outputs)
    decreases |a|
  {
    if a == [] {
      assert a + b == b;
    } else {
      assert (a + b)[0] == a[0];
      assert (a + b)[1..] == a[1..] + b;
      RunWithAppend(step, step(s, a[0]).state, a[1..], b);
    }
  }

  /** Running `a` then `b` is running `a + b`. */
  lemma RunAppend(s: State, a: seq<Update>, b: seq<Update>)
    ensures Run(s, a + b).state == Run(Run(s, a).state, b).state
    ensures Run(s, a + b).outputs == Run(s, a).outputs + Run(Run(s, a).state, b).outputs
  {
    RunWithAppend(Handle, s, a, b);
  }

  lemma RunCons(s: State, us: seq<Update>)
    requires us != []
    ensures var e := Handle(s, us[0]);
      Run(s, us) == Trace(Run(e.state, us[1..]).state, e.outputs + Run(e.state, us[1..]).outputs)
  {
  }

  lemma RunOne(s: State, upd: Update)
    ensures Run(s, [upd]) == Trace(Handle(s, upd).state, Handle(s, upd).outputs)
  {
    RunCons(s, [upd]);
    assert [upd][1..] == [];
  }

  /** On a dense table, any run keeps it dense, never changes or removes a
      stored ticket, and adds exactly one ticket per channel post. */
  lemma {:induction false} RunKeepsTable(s: State, us: seq<Update>)
    requires KeysDense(s.tickets)
    ensures var r := Run(s, us);
      KeysDense(r.state.tickets) && Extends(s.tickets, r.state.tickets)
      && |r.state.tickets| == |s.tickets| + CountPosts(r.outputs)
    decreases |us|
  {
    if us != [] {
      var e := Handle(s, us[0]);
      RunCons(s, us);
      HandleKeepsTable(s, us[0]);
      RunKeepsTable(e.state, us[1..]);
      CountPostsAppend(e.outputs, Run(e.state, us[1..]).outputs);
    }
  }

  /** From start-up, the tickets are numbered 1..n, n being the number of
      cards posted to the channel. */
  lemma Reachable(us: seq<Update>)
    ensures var r := Run(Initial, us);
      KeysDense(r.state.tickets) && |r.state.tickets| == CountPosts(r.outputs)
  {
    RunKeepsTable(Initial, us);
  }

  /** Updates from other users never touch `u`'s draft. */
  lemma {:induction false} RunLeavesOthers(s: State, us: seq<Update>, u: UserId)
    requires forall i :: 0 <= i < |us| ==> us[i].sender != u
    ensures DraftOf(Run(s, us).state, u) == DraftOf(s, u)
    decreases |us|
  {
    if us != [] {
      RunCons(s, us);
      HandleKeepsTable(s, us[0]);
      RunLeavesOthers(Handle(s, us[0]).state, us[1..], u);
    }
  }

  /** In step "problem" every text replaces the description and the step
      stays, so the last text sent is the description. */
  lemma {:induction false} LastProblemTextWins(s: State, u: UserId, texts: seq<string>)
    requires DraftOf(s, u).step == Some(Problem)
    requires |texts| > 0
    ensures var r := Run(s, TextsFrom(u, texts));
      DraftOf(r.state, u) == DraftOf(s, u).(problem := Some(texts[|texts| - 1]))
      && r.state.tickets == s.tickets
    decreases |texts|
  {
    var us := TextsFrom(u, texts);
    var e := Handle(s, us[0]);
    RunCons(s, us);
    assert us[1..] == TextsFrom(u, texts[1..]);
    if |texts| > 1 {
      LastProblemTextWins(e.state, u, texts[1..]);
    }
  }

  function SkipRoute(u: UserId, name: string, place: string, problem: string): seq<Update> {
    [Update(u, Start), Update(u, Text(name)), Update(u, Text(place)), Update(u, Text(problem)),
     Update(u, Button(SkipPhoto))]
  }

  function PhotoRoute(u: UserId, name: string, place: string, problem: string, sizes: seq<string>): seq<Update> {
    [Update(u, Start), Update(u, Text(name)), Update(u, Text(place)), Update(u, Text(problem)),
     Update(u, Button(AddPhoto)), Update(u, Photo(sizes))]
  }

  /** The four steps before the photo choice. */
  lemma Register(s: State, u: UserId, name: string, place: string, problem: string)
    ensures var r := Run(s, SkipRoute(u, name, place, problem)[..4]);
      r.state.tickets == s.tickets
      && DraftOf(r.state, u) == DraftOf(s, u).(step := Some(Problem), name := Some(name),
                                                place := Some(place), problem := Some(problem))
      && r.outputs == [Reply(WelcomePrompt), Reply(PlacePrompt), Reply(ProblemPrompt),
                       ReplyWithButtons(PhotoQuestion, PhotoChoice)]
  {
    var us := SkipRoute(u, name, place, problem)[..4];
    var s1 := OnStart(s, u).state;
    var s2 := OnText(s1, u, name).state;
    var s3 := OnText(s2, u, place).state;
    assert us[3..] == [Update(u, Text(problem))];
    RunOne(s3, us[3]);
    RunCons(s2, us[2..]);
    assert us[2..][1..] == us[3..];
    RunCons(s1, us[1..]);
    assert us[1..][1..] == us[2..];
    RunCons(s, us);
  }

  /** Start, name, place, description, "skip_photo": the ticket is stored
      under the next number with the texts sent and whatever photo id the
      draft already held, the card is posted, and nothing confirms it to the
      author; the draft is not cleared. */
  lemma SubmitWithoutPhoto(s: State, u: UserId, name: string, place: string, problem: string)
    requires KeysDense(s.tickets)
    ensures var r := Run(s, SkipRoute(u, name, place, problem));
      var id := |s.tickets| + 1;
      var t := Ticket(name, place, problem, DraftOf(s, u).photoId, NewStatus, u);
      r.state.tickets == s.tickets[id := t] && id !in s.tickets
      && DraftOf(r.state, u) == DraftOf(s, u).(step := Some(Problem), name := Some(name),
                                                place := Some(place), problem := Some(problem))
      && r.outputs == [Reply(WelcomePrompt), Reply(PlacePrompt), Reply(ProblemPrompt),
                       ReplyWithButtons(PhotoQuestion, PhotoChoice), AnswerCallback, ChannelPost(id, t)]
  {
    var us := SkipRoute(u, name, place, problem);
    var skip := Update(u, Button(SkipPhoto));
    assert us == us[..4] + [skip];
    Register(s, u, name, place, problem);
    RunAppend(s, us[..4], [skip]);
    var s4 := Run(s, us[..4]).state;
    SkipFiles(s4, u);
  }

  /** From a complete draft, "skip_photo" files the ticket under the next
      number and posts its card, but leaves the draft as it was. */
  lemma SkipFiles(s: State, u: UserId)
    requires KeysDense(s.tickets)
    requires Complete(DraftOf(s, u))
    ensures var r := Run(s, [Update(u, Button(SkipPhoto))]);
      var id, t := |s.tickets| + 1, NewTicket(DraftOf(s, u), u);
      r.state.tickets == s.tickets[id := t] && id !in s.tickets && |r.state.tickets| == id
      && KeysDense(r.state.tickets) && DraftOf(r.state, u) == DraftOf(s, u)
      && r.outputs == [AnswerCallback, ChannelPost(id, t)]
  {
    var skip := Update(u, Button(SkipPhoto));
    RunOne(s, skip);
    assert Handle(s, skip) == OnButton(s, u, SkipPhoto);
    InsertNextKeepsDense(s.tickets, NewTicket(DraftOf(s, u), u));
  }

  /** Start, name, place, description, "add_photo", a photo: the ticket
      carries the largest size's file id, the card goes out as a photo post
      (for a non-empty id), the author gets the confirmation and the draft
      is cleared. */
  lemma SubmitWithPhoto(s: State, u: UserId, name: string, place: string, problem: string,
                        sizes: seq<string>)
    requires KeysDense(s.tickets)
    requires |sizes| > 0
    ensures var r := Run(s, PhotoRoute(u, name, place, problem, sizes));
      var id := |s.tickets| + 1;
      var t := Ticket(name, place, problem, Some(sizes[|sizes| - 1]), NewStatus, u);
      r.state.tickets == s.tickets[id := t] && id !in s.tickets
      && DraftOf(r.state, u) == EmptyDraft
      && (sizes[|sizes| - 1] != "" ==> ChannelPost(id, t).ChannelPhoto?)
      && r.outputs == [Reply(WelcomePrompt), Reply(PlacePrompt), Reply(ProblemPrompt),
                       ReplyWithButtons(PhotoQuestion, PhotoChoice), AnswerCallback,
                       EditMessage(SendPhotoPrompt), ChannelPost(id, t), Reply(Confirmation(id))]
  {
    var head := SkipRoute(u, name, place, problem)[..4];
    var tail := [Update(u, Button(AddPhoto)), Update(u, Photo(sizes))];
    assert PhotoRoute(u, name, place, problem, sizes) == head + tail;
    Register(s, u, name, place, problem);
    RunAppend(s, head, tail);
    AttachPhoto(Run(s, head).state, u, sizes);
  }

  /** From a complete draft, "add_photo" then a photo files the ticket with
      the largest size's file id and clears the draft. */
  lemma AttachPhoto(s: State, u: UserId, sizes: seq<string>)
    requires Complete(DraftOf(s, u))
    requires |sizes| > 0
    ensures var r := Run(s, [Update(u, Button(AddPhoto)), Update(u, Photo(sizes))]);
      var id := |s.tickets| + 1;
      var t := NewTicket(DraftOf(s, u).(photoId := Some(sizes[|sizes| - 1])), u);
      r.state.tickets == s.tickets[id := t]
      && DraftOf(r.state, u) == EmptyDraft
      && r.outputs == [AnswerCallback, EditMessage(SendPhotoPrompt), ChannelPost(id, t),
                       Reply(Confirmation(id))]
  {
    var us := [Update(u, Button(AddPhoto)), Update(u, Photo(sizes))];
    var e1 := OnButton(s, u, AddPhoto);
    var e2 := OnPhoto(e1.state, u, sizes);
    AddPhotoThenPhoto(s, u, sizes);
    assert Handle(s, us[0]) == e1;
    assert Handle(e1.state, us[1]) == e2;
    RunCons(s, us);
    assert us[1..] == [us[1]];
    RunOne(e1.state, us[1]);
  }

  /** Pressing "skip_photo" a second time stores a second, identical
      ticket, because the first press left the draft in place. */
  lemma SkipTwiceStoresTwice(s: State, u: UserId)
    requires KeysDense(s.tickets)
    requires Complete(DraftOf(s, u))
    ensures var r := Run(s, [Update(u, Button(SkipPhoto)), Update(u, Button(SkipPhoto))]);
      var n, t := |s.tickets|, NewTicket(DraftOf(s, u), u);
      r.state.tickets == s.tickets[n + 1 := t][n + 2 := t]
      && r.outputs == [AnswerCallback, ChannelPost(n + 1, t), AnswerCallback, ChannelPost(n + 2, t)]
  {
    var skip := Update(u, Button(SkipPhoto));
    assert [skip, skip] == [skip] + [skip];
    RunAppend(s, [skip], [skip]);
    SkipFiles(s, u);
    SkipFiles(Run(s, [skip]).state, u);
  }

  /** A photo sent after a stale "add_photo" press, with no registration,
      is kept in the draft when the ticket cannot be created; a later
      registration that skips the photo still files the ticket with it. */
  lemma StalePhotoIsFiled(u: UserId, photo: string, name: string, place: string, problem: string)
    ensures var r := Run(Initial, [Update(u, Button(AddPhoto)), Update(u, Photo([photo]))]
                                  + SkipRoute(u, name, place, problem));
      1 in r.state.tickets && r.state.tickets[1].photo == Some(photo)
  {
    var add, snap := Update(u, Button(AddPhoto)), Update(u, Photo([photo]));
    assert [add, snap] == [add] + [snap];
    RunAppend(Initial, [add, snap], SkipRoute(u, name, place, problem));
    RunAppend(Initial, [add], [snap]);
    RunOne(Initial, add);
    var s1 := Handle(Initial, add).state;
    RunOne(s1, snap);
    var s2 := Handle(s1, snap).state;
    assert DraftOf(s2, u).photoId == Some(photo);
    assert s2.tickets == map[];
    SubmitWithoutPhoto(s2, u, name, place, problem);
  }
}
