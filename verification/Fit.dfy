/** Truncating a status text so that its request fits the channel's byte limit. */
module Fit {
  import opened Wrappers
  import opened Wire
  import opened Channel

  // ------------------------------------------------------------ encoded sizes

  /** Bytes of a character in UTF-8. */
  function Utf8Size(c: char): nat {
    var n := c as int;
    if n < 0x80 then 1 else if n < 0x800 then 2 else if n < 0x1_0000 then 3 else 4
  }

  function ByteSize(s: string): nat {
    if s == [] then 0 else Utf8Size(s[0]) + ByteSize(s[1..])
  }

  function HexDigit(n: int): char
    requires 0 <= n < 16
  {
    "0123456789abcdef"[n]
  }

  /** A character inside a JSON string literal. */
  function EscapeChar(c: char): string {
    var n := c as int;
    if c == '\"' then "\\\""
    else if c == '\\' then "\\\\"
    else if n == 8 then "\\b"
    else if n == 9 then "\\t"
    else if n == 10 then "\\n"
    else if n == 12 then "\\f"
    else if n == 13 then "\\r"
    else if n < 32 then "\\u00" + [HexDigit(n / 16), HexDigit(n % 16)]
    else [c]
  }

  function Escape(s: string): string {
    if s == [] then "" else EscapeChar(s[0]) + Escape(s[1..])
  }

  function Decimal(n: nat): string {
    if n < 10 then [HexDigit(n)] else Decimal(n / 10) + [HexDigit(n % 10)]
  }

  /** The canonical request of a status report, up to its text; keys are in sorted order. */
  function Head(author: string, channel: string, task: string, revision: nat, status: string): string {
    ("{\"author\":\"" + author) + ("\",\"channel\":\"" + channel)
    + ("\",\"message\":{\"kind\":\"status\",\"revision\":" + Decimal(revision)) + (",\"status\":\"" + status)
    + ("\",\"task\":\"" + task) + "\",\"text\":\""
  }

  function Tail(slot: nat): string {
    ("\"},\"protocol\":1,\"seq\":" + Decimal(slot)) + "}"
  }

  function Render(author: string, channel: string, task: string, revision: nat, status: string, text: string, slot: nat): string {
    Head(author, channel, task, revision, status) + Escape(text) + Tail(slot)
  }

  predicate IsAscii(s: string) {
    forall i :: 0 <= i < |s| ==> (s[i] as int) < 0x80
  }

  lemma {:induction false} AsciiSize(s: string)
    requires IsAscii(s)
    ensures ByteSize(s) == |s|
  {
    if s != [] {
      AsciiSize(s[1..]);
    }
  }

  lemma {:induction false} ByteSizeConcat(a: string, b: string)
    ensures ByteSize(a + b) == ByteSize(a) + ByteSize(b)
  {
    if a == [] {
      assert a + b == b;
    } else {
      ByteSizeConcat(a[1..], b);
      assert (a + b)[1..] == a[1..] + b;
    }
  }

  /** Encoded bytes of a text: between one and six per character. */
  function TextSize(text: string): nat {
    ByteSize(Escape(text))
  }

  lemma EscapeCharSize(c: char)
    ensures 1 <= ByteSize(EscapeChar(c)) <= 6
    ensures !IsAscii([c]) ==> ByteSize(EscapeChar(c)) <= 4
  {
    if (c as int) < 0x80 {
      AsciiSize(EscapeChar(c));
    } else {
      assert EscapeChar(c)[1..] == "";
    }
  }

  lemma EmptyText()
    ensures TextSize("") == 0
  {
  }

  lemma TextSizeCons(text: string)
    requires text != []
    ensures TextSize(text) == ByteSize(EscapeChar(text[0])) + TextSize(text[1..])
  {
    hide EscapeChar, ByteSize;
    ByteSizeConcat(EscapeChar(text[0]), Escape(text[1..]));
  }

  lemma {:induction false} TextSizeConcat(a: string, b: string)
    ensures TextSize(a + b) == TextSize(a) + TextSize(b)
  {
    hide EscapeChar, ByteSize;
    if a == [] {
      assert a + b == b;
      EmptyText();
    } else {
      TextSizeConcat(a[1..], b);
      assert (a + b)[1..] == a[1..] + b;
      TextSizeCons(a + b);
      TextSizeCons(a);
    }
  }

  lemma {:induction false} TextSizeBounds(text: string)
    ensures |text| <= TextSize(text) <= 6 * |text|
  {
    if text != [] {
      EscapeCharSize(text[0]);
      TextSizeCons(text);
      TextSizeBounds(text[1..]);
    }
  }

  lemma {:induction false} DecimalSize(n: nat, m: nat)
    requires n <= m
    ensures IsAscii(Decimal(n)) && |Decimal(n)| <= |Decimal(m)|
  {
    if n >= 10 {
      DecimalSize(n / 10, m / 10);
    }
  }

  lemma MillionDigits(n: nat)
    requires n <= 1_000_000
    ensures |Decimal(n)| <= 7
  {
    assert |Decimal(1_000_000)| == 7;
    DecimalSize(n, 1_000_000);
  }

  // ------------------------------------------------------------ the request of a status

  /** The parts of a status report that truncation does not touch. */
  datatype Frame = Frame(author: string, channel: string, task: string, revision: nat, status: Status)

  predicate GoodFrame(frame: Frame) {
    IsName(frame.author) && IsName(frame.channel) && IsName(frame.task) && frame.revision <= 1_000_000
  }

  function RequestSize(frame: Frame, text: string, slot: nat): nat {
    ByteSize(Render(frame.author, frame.channel, frame.task, frame.revision, StatusText(frame.status), text, slot))
  }

  /** Everything but the text. */
  function Overhead(frame: Frame, slot: nat): nat {
    118 + |frame.author| + |frame.channel| + |frame.task| + |Decimal(frame.revision)| + |StatusText(frame.status)| + |Decimal(slot)|
  }

  lemma NameIsAscii(s: string)
    requires IsName(s)
    ensures IsAscii(s)
  {
    forall i | 0 <= i < |s| ensures (s[i] as int) < 0x80 {
      assert i >= 1 ==> IsLower(s[i]) || IsDigit(s[i]) || s[i] == '_' || s[i] == '-';
    }
  }

  lemma RequestSizeIs(frame: Frame, text: string, slot: nat)
    requires GoodFrame(frame)
    ensures RequestSize(frame, text, slot) == Overhead(frame, slot) + TextSize(text)
  {
    hide Head, Tail, Escape;
    HeadSize(frame);
    TailSize(slot);
    var head := Head(frame.author, frame.channel, frame.task, frame.revision, StatusText(frame.status));
    assert head + Escape(text) + Tail(slot) == head + (Escape(text) + Tail(slot));
    ByteSizeConcat(head, Escape(text) + Tail(slot));
    ByteSizeConcat(Escape(text), Tail(slot));
  }

  lemma HeadSize(frame: Frame)
    requires GoodFrame(frame)
    ensures ByteSize(Head(frame.author, frame.channel, frame.task, frame.revision, StatusText(frame.status)))
              == 95 + |frame.author| + |frame.channel| + |frame.task| + |Decimal(frame.revision)| + |StatusText(frame.status)|
  {
    hide Decimal, StatusText, ByteSize, IsAscii, IsName;
    NameIsAscii(frame.author);
    NameIsAscii(frame.channel);
    NameIsAscii(frame.task);
    DecimalSize(frame.revision, frame.revision);
    StatusIsAscii(frame.status);
    KeysAreAscii();
    var a := "{\"author\":\"" + frame.author;
    AsciiJoin("{\"author\":\"", frame.author);
    var b := "\",\"channel\":\"" + frame.channel;
    AsciiJoin("\",\"channel\":\"", frame.channel);
    AsciiJoin(a, b);
    var c := "\",\"message\":{\"kind\":\"status\",\"revision\":" + Decimal(frame.revision);
    AsciiJoin("\",\"message\":{\"kind\":\"status\",\"revision\":", Decimal(frame.revision));
    AsciiJoin(a + b, c);
    var d := ",\"status\":\"" + StatusText(frame.status);
    AsciiJoin(",\"status\":\"", StatusText(frame.status));
    AsciiJoin(a + b + c, d);
    var e := "\",\"task\":\"" + frame.task;
    AsciiJoin("\",\"task\":\"", frame.task);
    AsciiJoin(a + b + c + d, e);
    AsciiJoin(a + b + c + d + e, "\",\"text\":\"");
    AsciiSize(a + b + c + d + e + "\",\"text\":\"");
  }

  lemma AsciiJoin(a: string, b: string)
    requires IsAscii(a) && IsAscii(b)
    ensures IsAscii(a + b)
  {
  }

  lemma KeysAreAscii()
    ensures IsAscii("{\"author\":\"") && IsAscii("\",\"channel\":\"")
    ensures IsAscii("\",\"message\":{\"kind\":\"status\",\"revision\":")
    ensures IsAscii(",\"status\":\"") && IsAscii("\",\"task\":\"") && IsAscii("\",\"text\":\"")
  {
  }

  lemma StatusIsAscii(status: Status)
    ensures IsAscii(StatusText(status)) && |StatusText(status)| <= 9
  {
  }

  lemma TailSize(slot: nat)
    ensures ByteSize(Tail(slot)) == 23 + |Decimal(slot)|
  {
    hide Decimal, ByteSize;
    DecimalSize(slot, slot);
    AsciiSize(Tail(slot));
  }

  // ------------------------------------------------------------ truncation

  const SUFFIX := " [truncated]"

  /** One round of truncation of a text that is too large by `excess` bytes. */
  function Cut(text: string, excess: nat): string
    requires |text| > 16
  {
    var keep := |text| - excess - 32;
    text[..if keep < 1 then 1 else keep] + SUFFIX
  }

  /** A round shortens the text; unless only one character could be kept, the result
      fits at once. */
  lemma CutShrinks(text: string, excess: nat)
    requires |text| > 16 && excess > 0
    ensures |Cut(text, excess)| < |text|
    ensures |text| - excess - 32 >= 1 ==> TextSize(Cut(text, excess)) + excess <= TextSize(text)
    ensures |text| - excess - 32 < 1 ==> |Cut(text, excess)| == 13
  {
    var keep := |text| - excess - 32;
    if keep >= 1 {
      assert text == text[..keep] + text[keep..];
      TextSizeConcat(text[..keep], text[keep..]);
      TextSizeConcat(text[..keep], SUFFIX);
      TextSizeBounds(text[keep..]);
      SuffixSize();
    }
  }

  lemma SuffixSize()
    ensures TextSize(SUFFIX) == 12
  {
    hide ByteSize, Escape;
    PlainEscape(SUFFIX);
    AsciiSize(SUFFIX);
  }

  lemma {:induction false} PlainEscape(s: string)
    requires forall i :: 0 <= i < |s| ==> 32 <= s[i] as int < 0x80 && s[i] != '\"' && s[i] != '\\'
    ensures Escape(s) == s
  {
    if s != [] {
      PlainEscape(s[1..]);
    }
  }

  lemma CutIsText(text: string, excess: nat)
    requires |text| > 16
    ensures IsText(Str(Cut(text, excess)))
  {
    var cut := Cut(text, excess);
    assert cut[|cut| - 1] == ']';
  }

  /** Truncates until the request fits, measuring it in the largest slot there can be.
      Within the configured bounds it always succeeds, after at most one round, and the
      result then fits in every slot; a text that fits is left as it is. */
  method FitText(config: Config, frame: Frame, text: string) returns (r: Option<string>, rounds: nat)
    requires ValidConfig(config) && GoodFrame(frame) && IsText(Str(text))
    ensures r.Some? && rounds <= 1
    ensures IsText(Str(r.value))
    ensures forall slot: nat {:trigger RequestSize(frame, r.value, slot)} :: slot <= config.maxEvents ==>
              RequestSize(frame, r.value, slot) <= config.maxMessageBytes
    ensures RequestSize(frame, text, config.maxEvents) <= config.maxMessageBytes ==> r.value == text
    ensures RequestSize(frame, text, config.maxEvents) > config.maxMessageBytes ==>
              var keep := |text| - (RequestSize(frame, text, config.maxEvents) - config.maxMessageBytes) - 32;
              r.value == text[..if keep < 1 then 1 else keep] + SUFFIX && |r.value| < |text|
  {
    hide Render, StatusText, Escape, ByteSize, Decimal, IsText, IsName;
    var current := text;
    rounds := 0;
    while RequestSize(frame, current, config.maxEvents) > config.maxMessageBytes
      invariant IsText(Str(current))
      invariant rounds == 0 ==> current == text
      invariant rounds == 1 ==> RequestSize(frame, current, config.maxEvents) <= config.maxMessageBytes
      invariant rounds == 1 ==> RequestSize(frame, text, config.maxEvents) > config.maxMessageBytes
      invariant rounds == 1 ==> |text| > 16 && |current| < |text| && current == Cut(text, RequestSize(frame, text, config.maxEvents) - config.maxMessageBytes)
      invariant rounds <= 1
      decreases |current|
    {
      ShortTextFits(config, frame, current);
      var excess := RequestSize(frame, current, config.maxEvents) - config.maxMessageBytes;
      if |current| <= 16 { return None, rounds; }
      CutShrinks(current, excess);
      CutIsText(current, excess);
      RequestSizeIs(frame, current, config.maxEvents);
      RequestSizeIs(frame, Cut(current, excess), config.maxEvents);
      current := Cut(current, excess);
      rounds := rounds + 1;
      ShortTextFits(config, frame, current);
    }
    forall slot: nat | slot <= config.maxEvents ensures RequestSize(frame, current, slot) <= config.maxMessageBytes {
      RequestSizeIs(frame, current, slot);
      RequestSizeIs(frame, current, config.maxEvents);
      DecimalSize(slot, config.maxEvents);
    }
    return Some(current), rounds;
  }

  /** A text of at most 16 characters always fits: the overhead is bounded. */
  lemma ShortTextFits(config: Config, frame: Frame, text: string)
    requires ValidConfig(config) && GoodFrame(frame)
    ensures |text| <= 16 ==> RequestSize(frame, text, config.maxEvents) <= config.maxMessageBytes
  {
    RequestSizeIs(frame, text, config.maxEvents);
    TextSizeBounds(text);
    MillionDigits(frame.revision);
    MillionDigits(config.maxEvents);
    StatusIsAscii(frame.status);
  }
}
