/**
 * The message pane of a channel (client/src/components/ChannelInner.jsx):
 * the submit handler that enforces the 160-character limit and the giphy
 * prefix, the input's character counter, and the header's member list and
 * online-watcher text.
 */
module ChannelInner {
  import opened Common

  /** An attachment is handed to the send call untouched; its content plays no part here. */
  type Attachment = string

  const MaxLength: nat := 160
  const TooLongAlert: string := "Message cannot be more than 160 characters"
  const GiphyPrefix: string := "/giphy "

  datatype Parent = Parent(id: string)

  /** What the message input hands to the submit handler. */
  datatype Message = Message(text: string, attachments: seq<Attachment>,
                             mentionedUsers: seq<UserId>, parent: Option<Parent>)

  /** What the submit handler hands to `sendMessage`. */
  datatype Outgoing = Outgoing(attachments: seq<Attachment>, mentionedUsers: seq<UserId>,
                               parentId: Option<string>, parent: Option<Parent>, text: string)

  /** The input rejects a message only when it is strictly longer than the limit. */
  predicate TooLong(m: Message) {
    |m.text| > MaxLength
  }

  predicate IsGiphyCommand(t: string) {
    |t| >= |GiphyPrefix| && t[..|GiphyPrefix|] == GiphyPrefix
  }

  /** The text a giphy command was made from. */
  function StripGiphy(t: string): string {
    if IsGiphyCommand(t) then t[|GiphyPrefix|..] else t
  }

  /**
   * The message as it is sent: the attachments, mentions and parent are copied,
   * `parent_id` is the parent's id, and in giphy mode the text gets the prefix.
   */
  function Prepare(m: Message, giphy: bool): (o: Outgoing)
    ensures o.attachments == m.attachments && o.mentionedUsers == m.mentionedUsers && o.parent == m.parent
    ensures o.parentId.Some? <==> m.parent.Some?
    ensures o.parentId.Some? ==> o.parentId.value == m.parent.value.id
    ensures |o.text| == |m.text| + (if giphy then |GiphyPrefix| else 0)
    ensures o.text[|o.text| - |m.text|..] == m.text
    ensures IsGiphyCommand(o.text) <==> giphy || IsGiphyCommand(m.text)
  {
    var text := if giphy then GiphyPrefix + m.text else m.text;
    assert giphy ==> text[..|GiphyPrefix|] == GiphyPrefix;
    Outgoing(m.attachments, m.mentionedUsers,
             if m.parent.Some? then Some(m.parent.value.id) else None, m.parent, text)
  }

  /** The text typed is recovered from the text sent, unless it already looked like a giphy command. */
  lemma PrepareRoundTrip(m: Message, giphy: bool)
    requires giphy || !IsGiphyCommand(m.text)
    ensures StripGiphy(Prepare(m, giphy).text) == m.text
  {
    if giphy {
      assert (GiphyPrefix + m.text)[|GiphyPrefix|..] == m.text;
    }
  }

  /**
   * The limit is checked before the prefix is added: an accepted message is
   * sent with at most 167 characters, and a full-length one in giphy mode with
   * exactly that many.
   */
  lemma SentLength(m: Message, giphy: bool)
    requires !TooLong(m)
    ensures |Prepare(m, giphy).text| <= MaxLength + (if giphy then |GiphyPrefix| else 0)
    ensures giphy && |m.text| == MaxLength ==> |Prepare(m, giphy).text| == 167
  {
  }

  /** What one press of Send did. */
  datatype Submitted = Alerted | NotSent | Sent(out: Outgoing)

  /**
   * The state of the message pane: the giphy flag shared with the input, the
   * counter shown under the input, and the messages and alerts handed on so
   * far. `canSend` is whether the channel provided `sendMessage`.
   */
  class Composer {
    const canSend: bool
    var giphyState: bool
    var textLength: nat
    var sent: seq<Outgoing>
    var alerts: seq<string>

    constructor (canSend: bool)
      ensures this.canSend == canSend
      ensures !giphyState && textLength == 0 && sent == [] && alerts == []
    {
      this.canSend := canSend;
      giphyState := false;
      textLength := 0;
      sent := [];
      alerts := [];
    }

    /** The counter turns red past the limit. */
    predicate CounterOverLimit() reads this {
      textLength > MaxLength
    }

    /** The input's `onChange`: the counter follows the text's length. */
    method OnChange(text: string)
      modifies this`textLength
      ensures textLength == |text|
      ensures CounterOverLimit() <==> TooLong(Message(text, [], [], None))
    {
      textLength := |text|;
    }

    /** `setGiphyState` as handed to the input through the giphy context. */
    method SetGiphyState(on: bool)
      modifies this`giphyState
      ensures giphyState == on
    {
      giphyState := on;
    }

    /**
     * `overrideSubmitHandler`: a too-long message raises the alert and nothing
     * else; otherwise the prepared message is sent, when sending is possible,
     * and the giphy flag and the counter reset.
     */
    method Submit(m: Message) returns (r: Submitted)
      modifies this`giphyState, this`textLength, this`sent, this`alerts
      ensures TooLong(m) ==>
        && r == Alerted && alerts == old(alerts) + [TooLongAlert]
        && sent == old(sent) && giphyState == old(giphyState) && textLength == old(textLength)
      ensures !TooLong(m) && canSend ==>
        && r == Sent(Prepare(m, old(giphyState))) && sent == old(sent) + [r.out]
        && !giphyState && textLength == 0 && alerts == old(alerts)
      ensures !TooLong(m) && !canSend ==>
        && r == NotSent && sent == old(sent) && alerts == old(alerts)
        && giphyState == old(giphyState) && textLength == old(textLength)
    {
      if |m.text| > MaxLength {
        alerts := alerts + [TooLongAlert];
        return Alerted;
      }
      var updated := Prepare(m, giphyState);
      r := NotSent;
      if canSend {
        sent := sent + [updated];
        giphyState := false;
        textLength := 0;
        r := Sent(updated);
      }
    }
  }

  // ---------------------------------------------------------------------
  // The watcher text
  // ---------------------------------------------------------------------

  const NoUsersOnline: string := "No users online"
  const OneUserOnline: string := "1 user online"
  const UsersOnlineSuffix: string := " users online"

  predicate AllDigits(s: string) {
    forall i :: 0 <= i < |s| ==> IsDigit(s[i])
  }

  function DigitChar(d: nat): (c: char)
    requires d < 10
    ensures IsDigit(c)
  {
    ('0' as int + d) as char
  }

  /** The number a string of decimal digits denotes. */
  function DigitsValue(s: string): nat
    requires AllDigits(s)
  {
    if s == [] then 0 else DigitsValue(s[..|s| - 1]) * 10 + (s[|s| - 1] as int - '0' as int)
  }

  /** How a non-negative integer is printed: decimal digits, no leading zero. */
  function DecimalString(n: nat): (s: string)
    ensures |s| >= 1 && AllDigits(s)
    ensures |s| > 1 ==> s[0] != '0'
    ensures DigitsValue(s) == n
  {
    if n < 10 then [DigitChar(n)]
    else
      var prefix := DecimalString(n / 10);
      var s := prefix + [DigitChar(n % 10)];
      assert s[..|s| - 1] == prefix;
      s
  }

  /** How an integer is printed in a template string. */
  function IntString(n: int): (s: string)
    ensures |s| >= 1 && (IsDigit(s[0]) || s[0] == '-')
  {
    if n < 0 then "-" + DecimalString(-n) else DecimalString(n)
  }

  /** Reads back an integer printed by `IntString`. */
  function ParseInt(s: string): Option<int> {
    if |s| > 1 && s[0] == '-' && AllDigits(s[1..]) then Some(-(DigitsValue(s[1..]) as int))
    else if |s| > 0 && AllDigits(s) then Some(DigitsValue(s))
    else None
  }

  lemma IntStringRoundTrip(n: int)
    ensures ParseInt(IntString(n)) == Some(n)
  {
    if n < 0 {
      assert ("-" + DecimalString(-n))[1..] == DecimalString(-n);
    }
  }

  /** The watcher count as the header reads it: a missing count is no watchers. */
  function WatcherCount(watchers: Option<int>): int {
    if watchers.Some? then watchers.value else 0
  }

  /** `getWatcherText`. */
  function WatcherText(watchers: Option<int>): string {
    if watchers == None || watchers == Some(0) then NoUsersOnline
    else if watchers == Some(1) then OneUserOnline
    else IntString(watchers.value) + UsersOnlineSuffix
  }

  /** Reads the watcher count back from the header text. */
  function ReadWatcherText(text: string): Option<int> {
    if text == NoUsersOnline then Some(0)
    else if text == OneUserOnline then Some(1)
    else if |text| > |UsersOnlineSuffix| && text[|text| - |UsersOnlineSuffix|..] == UsersOnlineSuffix then
      ParseInt(text[..|text| - |UsersOnlineSuffix|])
    else None
  }

  /** The header text determines the watcher count: distinct counts read differently. */
  lemma WatcherTextRoundTrip(watchers: Option<int>)
    ensures ReadWatcherText(WatcherText(watchers)) == Some(WatcherCount(watchers))
  {
    if watchers.Some? && watchers.value != 0 && watchers.value != 1 {
      var n := watchers.value;
      var text := IntString(n) + UsersOnlineSuffix;
      assert text[..|text| - |UsersOnlineSuffix|] == IntString(n);
      assert text[|text| - |UsersOnlineSuffix|..] == UsersOnlineSuffix;
      assert text != NoUsersOnline by {
        if |IntString(n)| == 2 {
          assert text[0] == IntString(n)[0];
        } else {
          assert |text| != |NoUsersOnline|;
        }
      }
      assert text != OneUserOnline by {
        assert |text| > |OneUserOnline|;
      }
      IntStringRoundTrip(n);
    }
  }

  /** "No users online" exactly for no watchers, "1 user online" exactly for one. */
  lemma WatcherTextCases(watchers: Option<int>)
    ensures WatcherText(watchers) == NoUsersOnline <==> WatcherCount(watchers) == 0
    ensures WatcherText(watchers) == OneUserOnline <==> WatcherCount(watchers) == 1
  {
    WatcherTextRoundTrip(watchers);
  }

  // ---------------------------------------------------------------------
  // The header's member list
  // ---------------------------------------------------------------------

  /** A channel member as the header sees it; an empty `fullName` is a missing one. */
  datatype Member = Member(id: UserId, fullName: string)

  /** `user.fullName || user.id`. */
  function Label(m: Member): string {
    if m.fullName != "" then m.fullName else m.id
  }

  /** The members other than the current user, in order. */
  function Others(members: seq<Member>, me: UserId): (r: seq<Member>)
    ensures forall x :: x in r <==> x in members && x.id != me
    ensures |r| <= |members|
  {
    if members == [] then []
    else
      var rest := Others(members[1..], me);
      assert forall x :: x in members <==> x == members[0] || x in members[1..];
      if members[0].id != me then [members[0]] + rest else rest
  }

  predicate DistinctIds(members: seq<Member>) {
    forall i, j :: 0 <= i < j < |members| ==> members[i].id != members[j].id
  }

  /** The members are keyed by user id, so dropping the current user removes exactly one entry. */
  lemma {:induction false} OthersDropsOne(members: seq<Member>, me: UserId)
    requires DistinctIds(members)
    requires exists i :: 0 <= i < |members| && members[i].id == me
    ensures |Others(members, me)| == |members| - 1
  {
    if members[0].id == me {
      OthersKeepsAll(members[1..], me);
    } else {
      var i :| 0 <= i < |members| && members[i].id == me;
      assert members[1..][i - 1].id == me;
      OthersDropsOne(members[1..], me);
    }
  }

  /** Without the current user among them, every member is listed. */
  lemma {:induction false} OthersKeepsAll(members: seq<Member>, me: UserId)
    requires forall i :: 0 <= i < |members| ==> members[i].id != me
    ensures Others(members, me) == members
  {
    if members != [] {
      OthersKeepsAll(members[1..], me);
      assert [members[0]] + members[1..] == members;
    }
  }

  /** What the header shows: the channel name, or the other members and an "and N more" line. */
  datatype Header =
    | Messaging(names: seq<string>, more: Option<nat>)
    | Team(title: string)

  /** The name shown for each member, in order. */
  function Labels(members: seq<Member>): seq<string> {
    seq(|members|, i requires 0 <= i < |members| => Label(members[i]))
  }

  /** The labels are exactly those of the given members. */
  lemma LabelsCover(members: seq<Member>)
    ensures forall x :: x in members ==> Label(x) in Labels(members)
    ensures forall n :: n in Labels(members) ==> exists x :: x in members && Label(x) == n
  {
    var names := Labels(members);
    forall x | x in members
      ensures Label(x) in names
    {
      var i :| 0 <= i < |members| && members[i] == x;
      assert names[i] == Label(x);
    }
    forall n | n in names
      ensures exists x :: x in members && Label(x) == n
    {
      var i :| 0 <= i < |names| && names[i] == n;
      assert members[i] in members;
    }
  }

  /**
   * `MessagingHeader`: a messaging channel lists every other member and adds
   * "and N more" when there are more than three of them; any other channel
   * shows its name.
   */
  function ChannelHeader(channelType: string, channelName: string, members: seq<Member>, me: UserId): (h: Header)
    ensures h.Team? <==> channelType != "messaging"
    ensures h.Team? ==> h.title == "# " + channelName
    ensures h.Messaging? ==>
      var others := Others(members, me);
      && |h.names| == |others|
      && (forall x :: x in members && x.id != me ==> Label(x) in h.names)
      && (forall n :: n in h.names ==> exists x :: x in members && x.id != me && Label(x) == n)
      && (h.more.Some? <==> |others| > 3)
      && (h.more.Some? ==> 3 + h.more.value == |others|)
  {
    if channelType == "messaging" then
      var others := Others(members, me);
      var additionalMembers := |others| - 3;
      LabelsCover(others);
      Messaging(Labels(others), if additionalMembers > 0 then Some(additionalMembers) else None)
    else Team("# " + channelName)
  }
}
