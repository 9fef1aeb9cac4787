/**
 * The values the watcher derives from one message reported by the mailbox
 * library: the sender line, the notification body, the recency test and the
 * initial-sync filter, the temporary file the viewer opens, and the decisions
 * taken on a transport error and on the viewer's exit.
 */
module Messages {
  import opened Common
  import opened Text

  /** The `from` property of a listed message. */
  datatype Address = Address(name: string, address: string)

  /** The properties of a listed or pushed message that the watcher reads. */
  datatype Message = Message(uid: nat, modSeq: nat, from: Option<Address>, title: string, flags: seq<string>)

  // ---------------------------------------------------------------------------
  // Sender line and notification body

  /** `name <address>` when the message has a sender, the empty string otherwise. */
  function Sender(from: Option<Address>): (r: string)
    ensures r == [] <==> from.None?
  {
    match from
    case None => ""
    case Some(a) => a.name + " <" + a.address + ">"
  }

  /** Splits a sender line at its last `<`. */
  function ParseSender(line: string): Option<Address>
  {
    if |line| < 3 || line[|line| - 1] != '>' then None
    else
      var inner := line[..|line| - 1];
      match LastIndex(inner, '<')
      case None => None
      case Some(k) =>
        if 1 <= k && inner[k - 1] == ' ' then Some(Address(inner[..k - 1], inner[k + 1..]))
        else None
  }

  /** The sender line keeps name and address apart whenever the address holds no `<`. */
  lemma SenderRoundTrip(a: Address)
    requires '<' !in a.address
    ensures ParseSender(Sender(Some(a))) == Some(a)
  {
    var line := Sender(Some(a));
    var inner := line[..|line| - 1];
    assert inner == (a.name + [' ']) + ['<'] + a.address;
    LastIndexAt(a.name + [' '], '<', a.address);
    var k := |a.name| + 1;
    assert inner[k + 1..] == a.address;
    assert inner[..k - 1] == a.name;
  }

  const BodyPrefix: string := "<span color=\"#D6A046\">"
  const BodySeparator: string := "</span>\n\n"

  /**
   * The notification body: the sender, coloured, a blank line, then the
   * subject, both escaped. Sender line and subject can be read back from it:
   * the escape keeps them apart from the markup.
   */
  function Body(from: Option<Address>, title: string): (r: string)
    ensures DecodeBody(r) == Some((Sender(from), title))
  {
    DecodeBodySplits(EscapeHTML(Sender(from)), EscapeHTML(title));
    EscapeRoundTrip(Sender(from));
    EscapeRoundTrip(title);
    BodyPrefix + EscapeHTML(Sender(from)) + BodySeparator + EscapeHTML(title)
  }

  /** Recovers the sender line and subject from a notification body. */
  function DecodeBody(body: string): Option<(string, string)>
  {
    if |body| < |BodyPrefix| || body[..|BodyPrefix|] != BodyPrefix then None
    else
      var rest := body[|BodyPrefix|..];
      match FirstIndex(rest, '<')
      case None => None
      case Some(k) =>
        if |rest| - k >= |BodySeparator| && rest[k..k + |BodySeparator|] == BodySeparator
        then Some((Unescape(rest[..k]), Unescape(rest[k + |BodySeparator|..])))
        else None
  }

  /** Decoding splits at the closing tag whenever the first part holds no `<`. */
  lemma DecodeBodySplits(s: string, t: string)
    requires '<' !in s
    ensures DecodeBody(BodyPrefix + s + BodySeparator + t) == Some((Unescape(s), Unescape(t)))
  {
    var body := BodyPrefix + s + BodySeparator + t;
    assert body[..|BodyPrefix|] == BodyPrefix;
    var rest := body[|BodyPrefix|..];
    assert rest == s + ['<'] + (BodySeparator[1..] + t);
    FirstIndexAt(s, '<', BodySeparator[1..] + t);
    var k := |s|;
    assert rest[k..k + |BodySeparator|] == BodySeparator;
    assert rest[..k] == s;
    assert rest[k + |BodySeparator|..] == t;
  }

  lemma MarkupOnlyInTags(s: string, t: string)
    requires '<' !in s && '<' !in t
    ensures var body := BodyPrefix + s + BodySeparator + t;
      forall i :: 0 <= i < |body| && body[i] == '<' ==> i == 0 || i == |BodyPrefix| + |s|
  {
    var body := BodyPrefix + s + BodySeparator + t;
    var p, q := |BodyPrefix|, |BodyPrefix| + |s|;
    var r := q + |BodySeparator|;
    assert forall i :: 0 < i < p ==> body[i] == BodyPrefix[i] != '<';
    assert forall i :: p <= i < q ==> body[i] == s[i - p];
    assert forall i :: q < i < r ==> body[i] == BodySeparator[i - q] != '<';
    assert forall i :: r <= i < |body| ==> body[i] == t[i - r];
  }

  /** The only `<` in a body are those of the two span tags: sender and subject cannot inject markup. */
  lemma BodyMarkupOnlyInTags(from: Option<Address>, title: string)
    ensures var body := Body(from, title);
      forall i :: 0 <= i < |body| && body[i] == '<' ==>
        i == 0 || i == |BodyPrefix| + |EscapeHTML(Sender(from))|
  {
    MarkupOnlyInTags(EscapeHTML(Sender(from)), EscapeHTML(title));
  }

  // ---------------------------------------------------------------------------
  // Recency and the initial sync

  const RecentFlag: string := "\\Recent"
  const SeenFlag: string := "\\Seen"

  /** The number of most recent messages listed after the mailbox is opened (`listMessages(-25)`). */
  const InitialSyncFrom: int := -25

  /** `Array.prototype.indexOf`: the first position of `x`, or -1. */
  function IndexOf(xs: seq<string>, x: string): (r: int)
    ensures -1 <= r < |xs|
    ensures r == -1 <==> x !in xs
    ensures r >= 0 ==> xs[r] == x && x !in xs[..r]
    decreases |xs|
  {
    if xs == [] then -1
    else if xs[0] == x then 0
    else
      var k := IndexOf(xs[1..], x);
      if k == -1 then -1 else k + 1
  }

  /** A message is recent when `\Recent` is among its flags. */
  function IsMailRecent(m: Message): (r: bool)
    ensures r <==> RecentFlag in m.flags
  {
    IndexOf(m.flags, RecentFlag) > -1
  }

  /** `messages.filter(isMailRecent)`. */
  function RecentOnly(ms: seq<Message>): (r: seq<Message>)
    ensures |r| <= |ms|
    ensures forall m :: m in r <==> m in ms && IsMailRecent(m)
    decreases |ms|
  {
    if ms == [] then []
    else (if IsMailRecent(ms[0]) then [ms[0]] else []) + RecentOnly(ms[1..])
  }

  /** Filtering keeps list order: the recent messages of a listing come in the order of its parts. */
  lemma {:induction false} RecentOnlyAppend(a: seq<Message>, b: seq<Message>)
    ensures RecentOnly(a + b) == RecentOnly(a) + RecentOnly(b)
    decreases |a|
  {
    if a == [] {
      assert a + b == b;
    } else {
      assert (a + b)[1..] == a[1..] + b;
      RecentOnlyAppend(a[1..], b);
    }
  }

  /** A listing in which every message is recent is handled in full and in order. */
  lemma {:induction false} RecentOnlyAllRecent(ms: seq<Message>)
    requires forall i :: 0 <= i < |ms| ==> RecentFlag in ms[i].flags
    ensures RecentOnly(ms) == ms
    decreases |ms|
  {
    if ms != [] {
      RecentOnlyAllRecent(ms[1..]);
    }
  }

  // ---------------------------------------------------------------------------
  // The temporary file the viewer opens

  const TempFilePrefix: string := "/tmp/mail-"
  const TempFileSuffix: string := ".eml"

  /** `'/tmp/mail-' + uid + '-' + modSeq + '.eml'`: the UID and modSeq can be read back from it. */
  function TempFileName(uid: nat, modSeq: nat): (r: string)
    ensures ParseTempFile(r) == Some((uid, modSeq))
  {
    TempFileRoundTrip(uid, modSeq);
    TempFilePrefix + DecimalString(uid) + "-" + DecimalString(modSeq) + TempFileSuffix
  }

  /** Reads the UID and modification sequence back out of a temporary file name. */
  function ParseTempFile(name: string): Option<(nat, nat)>
  {
    var p, q := |TempFilePrefix|, |TempFileSuffix|;
    if |name| < p + q || name[..p] != TempFilePrefix || name[|name| - q..] != TempFileSuffix then None
    else
      var mid := name[p..|name| - q];
      match FirstIndex(mid, '-')
      case None => None
      case Some(k) =>
        var u, m := mid[..k], mid[k + 1..];
        if AllDigits(u) && AllDigits(m) then Some((DigitsValue(u), DigitsValue(m))) else None
  }

  /** A name built from two digit strings is split back at the dash. */
  lemma ParseTempFileOf(u: string, m: string)
    requires AllDigits(u) && AllDigits(m)
    ensures ParseTempFile(TempFilePrefix + u + "-" + m + TempFileSuffix) == Some((DigitsValue(u), DigitsValue(m)))
  {
    var mid := u + ['-'] + m;
    var name := TempFilePrefix + mid + TempFileSuffix;
    assert TempFilePrefix + u + "-" + m + TempFileSuffix == name;
    var p, q := |TempFilePrefix|, |TempFileSuffix|;
    assert name[..p] == TempFilePrefix;
    assert name[|name| - q..] == TempFileSuffix;
    assert name[p..|name| - q] == mid;
    assert '-' !in u by { assert forall i :: 0 <= i < |u| ==> IsDigit(u[i]); }
    FirstIndexAt(u, '-', m);
    assert mid[..|u|] == u && mid[|u| + 1..] == m;
  }

  /** The name of the temporary file determines the message version it was written for. */
  lemma TempFileRoundTrip(uid: nat, modSeq: nat)
    ensures var name := TempFilePrefix + DecimalString(uid) + "-" + DecimalString(modSeq) + TempFileSuffix;
      ParseTempFile(name) == Some((uid, modSeq))
  {
    ParseTempFileOf(DecimalString(uid), DecimalString(modSeq));
    DecimalRoundTrip(uid);
    DecimalRoundTrip(modSeq);
  }

  /** Two message versions never share a temporary file. */
  lemma TempFileNameInjective(uid1: nat, modSeq1: nat, uid2: nat, modSeq2: nat)
    requires TempFileName(uid1, modSeq1) == TempFileName(uid2, modSeq2)
    ensures uid1 == uid2 && modSeq1 == modSeq2
  {
    assert ParseTempFile(TempFileName(uid1, modSeq1)) == Some((uid1, modSeq1));
    assert ParseTempFile(TempFileName(uid2, modSeq2)) == Some((uid2, modSeq2));
  }

  // ---------------------------------------------------------------------------
  // Transport errors and the viewer's exit

  /** The `code` and `errorType` properties of an error emitted by the mailbox connection. */
  datatype TransportError = TransportError(code: Option<string>, errorType: Option<string>)

  /** What the error handler does: nothing more after reporting, or reconnect the current client. */
  datatype ErrorResponse = HostUnreachable | ReconnectNow | ReportOnly

  predicate IsTimeout(err: TransportError)
  {
    err.code == Some("ETIMEDOUT") || err.errorType == Some("TimeoutError")
  }

  /** The error classification, tested in order: unreachable host first, then timeout. */
  function ClassifyError(err: TransportError): (r: ErrorResponse)
    ensures err.code == Some("EHOSTUNREACH") ==> r == HostUnreachable
    ensures r == ReconnectNow <==> err.code != Some("EHOSTUNREACH") && IsTimeout(err)
    ensures r == ReportOnly <==> err.code != Some("EHOSTUNREACH") && !IsTimeout(err)
  {
    if err.code == Some("EHOSTUNREACH") then HostUnreachable
    else if IsTimeout(err) then ReconnectNow
    else ReportOnly
  }

  /**
   * The viewer's `close` callback receives the exit code, or null when the
   * process was ended by a signal; the message is marked seen when that value
   * is falsy.
   */
  function ViewerMarksSeen(code: Option<int>): (r: bool)
    ensures !r <==> code.Some? && code.value != 0
  {
    match code
    case None => true
    case Some(c) => c == 0
  }
}
