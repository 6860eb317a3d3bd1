/** The texts `create_ticket` composes: the channel card, the author link on
    its button and the confirmation sent to the author; with readers that
    recover the ticket number and the author's id from them. */
module Card {
  import opened Optional
  import opened Decimal
  import opened Model

  const CardHeader := "🆕 Заявка #"
  const AuthorButtonLabel := "Перейти к заявке"
  const LinkPrefix := "tg://user?id="

  /** The card: the number line, then the author, place and description
      lines, separated by newlines. */
  function CardText(id: nat, t: Ticket): string {
    CardHeader + NatToString(id) + "\n"
      + "👤 " + t.user + "\n"
      + "🏢 " + t.place + "\n"
      + "💬 " + t.desc
  }

  /** The link that opens a chat with the ticket's author. */
  function AuthorLink(userId: UserId): string {
    LinkPrefix + IntToString(userId)
  }

  function AuthorButton(t: Ticket): LinkButton {
    LinkButton(AuthorButtonLabel, AuthorLink(t.userId))
  }

  /** Python truthiness of the `photo` field: None and "" are false. */
  predicate HasPhoto(t: Ticket) {
    t.photo.Some? && t.photo.value != ""
  }

  /** The channel post for ticket `id`. */
  function ChannelPost(id: nat, t: Ticket): (r: Output)
    ensures r.ChannelPhoto? <==> HasPhoto(t)
    ensures r.ChannelPhoto? ==> r.photo == t.photo.value
    ensures r.ChannelPhoto? || r.ChannelText?
    ensures PostText(r) == CardText(id, t) && PostButton(r) == AuthorButton(t)
  {
    if HasPhoto(t) then ChannelPhoto(t.photo.value, CardText(id, t), AuthorButton(t))
    else ChannelText(CardText(id, t), AuthorButton(t))
  }

  /** The text of a channel post, whichever kind it is. */
  function PostText(o: Output): string
    requires o.ChannelPhoto? || o.ChannelText?
  {
    if o.ChannelPhoto? then o.caption else o.text
  }

  function PostButton(o: Output): LinkButton
    requires o.ChannelPhoto? || o.ChannelText?
  {
    o.button
  }

  const ConfirmationHead := "Заявка #"
  const ConfirmationTail := " отправлена в канал ✅"

  /** The reply that confirms ticket `id` to its author. */
  function Confirmation(id: nat): string {
    ConfirmationHead + NatToString(id) + ConfirmationTail
  }

  /** The ticket number a confirmation reports, if the text is one. */
  function ConfirmationId(text: string): Option<nat> {
    var h, t := |ConfirmationHead|, |ConfirmationTail|;
    if |text| < h + t || text[..h] != ConfirmationHead || text[|text| - t..] != ConfirmationTail then None
    else
      var digits := text[h..|text| - t];
      if digits != [] && AllDigits(digits) then Some(ParseNat(digits)) else None
  }

  /** The text up to the first newline (all of it if there is none). */
  function FirstLine(s: string): (r: string)
    ensures |r| <= |s| && r == s[..|r|]
    ensures '\n' !in r
  {
    if s == [] || s[0] == '\n' then [] else [s[0]] + FirstLine(s[1..])
  }

  /** The ticket number on a card's first line, if the text is a card. */
  function CardId(text: string): Option<nat> {
    if |text| < |CardHeader| || text[..|CardHeader|] != CardHeader then None
    else
      var digits := FirstLine(text[|CardHeader|..]);
      if digits != [] && AllDigits(digits) then Some(ParseNat(digits)) else None
  }

  /** The user id an author link points at, if the text is such a link. */
  function LinkUserId(url: string): Option<UserId> {
    if |url| < |LinkPrefix| || url[..|LinkPrefix|] != LinkPrefix then None
    else ParseInt(url[|LinkPrefix|..])
  }

  lemma {:induction false} FirstLineOf(line: string, rest: string)
    requires '\n' !in line
    ensures FirstLine(line + "\n" + rest) == line
  {
    if line != [] {
      assert (line + "\n" + rest)[1..] == line[1..] + "\n" + rest;
      FirstLineOf(line[1..], rest);
    } else {
      assert (line + "\n" + rest)[0] == '\n';
    }
  }

  lemma NoNewlineInDigits(s: string)
    requires AllDigits(s)
    ensures '\n' !in s
  {
    forall i | 0 <= i < |s| ensures s[i] != '\n' {
      assert IsDigit(s[i]);
    }
  }

  lemma CardIdOfCardText(id: nat, t: Ticket)
    ensures CardId(CardText(id, t)) == Some(id)
  {
    var digits := NatToString(id);
    var rest := "👤 " + t.user + "\n" + "🏢 " + t.place + "\n" + "💬 " + t.desc;
    var text := CardText(id, t);
    assert text == CardHeader + (digits + "\n" + rest);
    assert text[..|CardHeader|] == CardHeader;
    assert text[|CardHeader|..] == digits + "\n" + rest;
    NoNewlineInDigits(digits);
    FirstLineOf(digits, rest);
    ParseNatToString(id);
  }

  lemma ConfirmationIdOfConfirmation(id: nat)
    ensures ConfirmationId(Confirmation(id)) == Some(id)
  {
    var digits := NatToString(id);
    var text := Confirmation(id);
    assert text[..|ConfirmationHead|] == ConfirmationHead;
    assert text[|text| - |ConfirmationTail|..] == ConfirmationTail;
    assert text[|ConfirmationHead|..|text| - |ConfirmationTail|] == digits;
    ParseNatToString(id);
  }

  lemma LinkUserIdOfAuthorLink(userId: UserId)
    ensures LinkUserId(AuthorLink(userId)) == Some(userId)
  {
    var url := AuthorLink(userId);
    assert url[..|LinkPrefix|] == LinkPrefix;
    assert url[|LinkPrefix|..] == IntToString(userId);
    ParseIntToString(userId);
  }

  /** Whichever kind of post it is, the ticket number can be read back from
      its text and the author's id from its button. */
  lemma ChannelPostReadsBack(id: nat, t: Ticket)
    ensures CardId(PostText(ChannelPost(id, t))) == Some(id)
    ensures LinkUserId(PostButton(ChannelPost(id, t)).url) == Some(t.userId)
  {
    CardIdOfCardText(id, t);
    LinkUserIdOfAuthorLink(t.userId);
  }

  /** Cards of different tickets differ: their number lines do. So do the
      confirmations of different tickets. */
  lemma CardsOfDistinctIdsDiffer(i: nat, j: nat, t: Ticket, u: Ticket)
    requires i != j
    ensures CardText(i, t) != CardText(j, u)
    ensures Confirmation(i) != Confirmation(j)
  {
    CardIdOfCardText(i, t);
    CardIdOfCardText(j, u);
    ConfirmationIdOfConfirmation(i);
    ConfirmationIdOfConfirmation(j);
  }
}
