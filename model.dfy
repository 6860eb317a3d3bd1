/** The state the bot keeps in memory, the events it reacts to and the
    transport calls it makes, as values. */
module Model {
  import opened Optional

  /** Telegram's numeric user id (`update.effective_user.id`). */
  type UserId = int

  /** The values the handlers store under `user_data["step"]`. */
  datatype Step = Name | Place | Problem | WaitingPhoto

  /** One user's `context.user_data`. Only these five keys are ever written;
      an absent key is None. */
  datatype Draft = Draft(
    step: Option<Step>,
    name: Option<string>,
    place: Option<string>,
    problem: Option<string>,
    photoId: Option<string>)

  /** `user_data` of a user the bot has not seen, or after `clear()`. */
  const EmptyDraft := Draft(None, None, None, None, None)

  /** One entry of the `tickets` table. */
  datatype Ticket = Ticket(
    user: string,
    place: string,
    desc: string,
    photo: Option<string>,
    status: string,
    userId: UserId)

  /** The status every ticket is created with. */
  const NewStatus := "Новая"

  /** What the bot holds in memory: every user's `user_data` and the global
      `tickets` dictionary. */
  datatype State = State(userData: map<UserId, Draft>, tickets: map<int, Ticket>)

  /** The state after the bot starts: no users, no tickets. */
  const Initial := State(map[], map[])

  /** The update kinds the handlers are registered for: the `/start`
      command, plain text, a photo message (the `file_id` of each size
      Telegram sent, smallest first) and an inline-button press. */
  datatype Event = Start | Text(text: string) | Photo(fileIds: seq<string>) | Button(data: string)

  datatype Update = Update(sender: UserId, event: Event)

  /** An inline button carrying callback data. */
  datatype CallbackButton = CallbackButton(title: string, data: string)

  /** An inline button that opens a link. */
  datatype LinkButton = LinkButton(title: string, url: string)

  /** The transport calls the handlers make, in the order they make them. */
  datatype Output =
    | Reply(text: string)
    | ReplyWithButtons(text: string, buttons: seq<CallbackButton>)
    | AnswerCallback
    | EditMessage(text: string)
    | ChannelPhoto(photo: string, caption: string, button: LinkButton)
    | ChannelText(text: string, button: LinkButton)

  /** The exceptions `create_ticket` can raise: a missing draft key, or
      `update.message` being None on a callback update. */
  datatype Fault = KeyError(key: string) | NoMessage

  /** What a handler does: the new state, the calls made and the exception
      that escaped it, if any. */
  datatype Effect = Effect(state: State, outputs: seq<Output>, fault: Option<Fault>)

  /** `context.user_data` for a user; a user never seen has an empty one. */
  function DraftOf(s: State, u: UserId): Draft {
    if u in s.userData then s.userData[u] else EmptyDraft
  }

  function SetDraft(s: State, u: UserId, d: Draft): (r: State)
    ensures DraftOf(r, u) == d && r.tickets == s.tickets
  {
    s.(userData := s.userData[u := d])
  }

  /** The keys of the ticket table are exactly 1..n, n being its size. */
  ghost predicate KeysDense(t: map<int, Ticket>) {
    forall k :: k in t <==> 1 <= k <= |t|
  }

  /** Every ticket of `a` is in `b`, unmodified. */
  ghost predicate Extends(a: map<int, Ticket>, b: map<int, Ticket>) {
    forall k :: k in a ==> k in b && b[k] == a[k]
  }

  /** `tickets[len(tickets) + 1] = x` on a dense table: the key is fresh,
      no stored ticket changes, and the table stays dense. */
  lemma InsertNextKeepsDense(t: map<int, Ticket>, x: Ticket)
    ensures KeysDense(t) ==>
      |t| + 1 !in t && KeysDense(t[|t| + 1 := x]) && Extends(t, t[|t| + 1 := x])
      && |t[|t| + 1 := x]| == |t| + 1
  {
  }

  /** Nobody's draft but `u`'s differs between `s` and `s'`. */
  ghost predicate OthersUnchanged(s: State, s': State, u: UserId) {
    forall v :: v != u ==> DraftOf(s', v) == DraftOf(s, v)
  }

  /** The draft has every key `create_ticket` reads with `[...]`. */
  predicate Complete(d: Draft) {
    d.name.Some? && d.place.Some? && d.problem.Some?
  }

  /** The number of channel posts in a list of calls. */
  function CountPosts(outs: seq<Output>): nat {
    if outs == [] then 0
    else (if IsPost(outs[0]) then 1 else 0) + CountPosts(outs[1..])
  }

  function IsPost(o: Output): bool {
    o.ChannelPhoto? || o.ChannelText?
  }

  lemma CountPostsPair(a: Output, b: Output)
    ensures CountPosts([a, b]) == (if IsPost(a) then 1 else 0) + (if IsPost(b) then 1 else 0)
  {
    assert [a, b][1..] == [b];
    assert [b][1..] == [];
    assert CountPosts([b]) == (if IsPost(b) then 1 else 0) + CountPosts([]);
    assert CountPosts([a, b]) == (if IsPost(a) then 1 else 0) + CountPosts([b]);
  }

  lemma {:induction false} CountPostsAppend(a: seq<Output>, b: seq<Output>)
    ensures CountPosts(a + b) == CountPosts(a) + CountPosts(b)
  {
    if a != [] {
      assert (a + b)[1..] == a[1..] + b;
      CountPostsAppend(a[1..], b);
    } else {
      assert a + b == b;
    }
  }
}
