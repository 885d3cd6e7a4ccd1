/**
 * The pure text and time helpers of utils/helpers.py: truncation,
 * sanitising outgoing text, the deduplication key behind the message
 * hash, order-id extraction and the "time ago" wording.
 */
module Helpers {
  import opened Common
  import opened Text

  // ---------------------------------------------------------------- truncate_text

  /** Python's `s[:stop]`: a negative stop counts from the end. */
  function SliceTo(s: string, stop: int): (r: string)
    ensures |r| <= |s| && r == s[..|r|]
    ensures 0 <= stop <= |s| ==> |r| == stop
  {
    if stop >= 0 then s[..if stop <= |s| then stop else |s|]
    else if |s| + stop >= 0 then s[..|s| + stop]
    else []
  }

  /**
   * truncate_text(text, max_length, suffix). A missing or empty text gives
   * "", a text that fits is returned as it is, and a longer text is cut and
   * the suffix appended.
   */
  function TruncateText(text: Option<string>, maxLength: int, suffix: string): (r: string)
    ensures text.None? || text == Some("") ==> r == ""
    ensures text.Some? && |text.value| <= maxLength ==> r == text.value
    ensures text.Some? && |text.value| > maxLength && maxLength >= |suffix| ==>
      |r| == maxLength && r[..maxLength - |suffix|] == text.value[..maxLength - |suffix|] &&
      r[maxLength - |suffix|..] == suffix
    ensures text.Some? && maxLength >= |suffix| ==> |r| <= maxLength || r == text.value
  {
    if text.None? || text.value == "" then ""
    else if |text.value| <= maxLength then text.value
    else SliceTo(text.value, maxLength - |suffix|) + suffix
  }

  // ---------------------------------------------------------------- sanitize_for_funpay

  /** Index of the first occurrence of `c` in `s`, if any. */
  function IndexOf(s: string, c: char): (r: Option<nat>)
    ensures r.Some? ==> r.value < |s| && s[r.value] == c && c !in s[..r.value]
    ensures r.None? ==> c !in s
  {
    if s == [] then None
    else if s[0] == c then Some(0)
    else match IndexOf(s[1..], c)
      case None => None
      case Some(k) => assert s[1..][..k] == s[1..k + 1]; Some(k + 1)
  }

  /**
   * `re.sub(r'<[^>]+>', '', s)`: every '<' that is followed by at least one
   * character other than '>' and then by a '>' opens a tag that is removed
   * up to and including that first '>'; matches are taken left to right.
   */
  function StripTags(s: string): (r: string)
    ensures |r| <= |s|
    ensures forall c :: c in r ==> c in s
    decreases |s|
  {
    if s == [] then []
    else if s[0] == '<' && |s| >= 2 && s[1] != '>' && IndexOf(s[1..], '>').Some? then
      StripTags(s[IndexOf(s[1..], '>').value + 2..])
    else
      [s[0]] + StripTags(s[1..])
  }

  /** `s` without its leading whitespace. */
  function DropSpaces(s: string): (r: string)
    ensures |r| <= |s| && r == s[|s| - |r|..]
    ensures r != [] ==> !IsSpace(r[0])
  {
    if s != [] && IsSpace(s[0]) then DropSpaces(s[1..]) else s
  }

  /** `re.sub(r'\s+', ' ', s)`: each maximal whitespace run becomes one space. */
  function CollapseSpaces(s: string): (r: string)
    ensures forall i :: 0 <= i < |r| && IsSpace(r[i]) ==> r[i] == ' '
    ensures forall i :: 0 <= i < |r| - 1 ==> !(IsSpace(r[i]) && IsSpace(r[i + 1]))
    decreases |s|
  {
    if s == [] then []
    else if IsSpace(s[0]) then
      var rest := DropSpaces(s[1..]);
      var tail := CollapseSpaces(rest);
      assert rest != [] ==> tail != [] && tail[0] == rest[0];
      [' '] + tail
    else [s[0]] + CollapseSpaces(s[1..])
  }

  /** Keeps characters with code >= 32, and '\n' and '\t'. */
  function DropControls(s: string): (r: string)
    ensures forall i :: 0 <= i < |r| ==> r[i] as int >= 32 || r[i] == '\n' || r[i] == '\t'
    ensures forall c :: c in r ==> c in s
  {
    if s == [] then []
    else if s[0] as int >= 32 || s[0] == '\n' || s[0] == '\t' then [s[0]] + DropControls(s[1..])
    else DropControls(s[1..])
  }

  /** Leading part of `s` before its trailing whitespace. */
  function DropTrailingSpaces(s: string): (r: string)
    ensures |r| <= |s| && r == s[..|r|]
    ensures r != [] ==> !IsSpace(r[|r| - 1])
  {
    if s != [] && IsSpace(s[|s| - 1]) then DropTrailingSpaces(s[..|s| - 1]) else s
  }

  /** `s.strip()`. */
  function Strip(s: string): (r: string)
    ensures r != [] ==> !IsSpace(r[0]) && !IsSpace(r[|r| - 1])
    ensures forall c :: c in r ==> c in s
  {
    var front := DropSpaces(s);
    var r := DropTrailingSpaces(front);
    assert r != [] ==> r[0] == front[0];
    assert forall c :: c in r ==> c in front;
    r
  }

  /**
   * sanitize_for_funpay: tags removed, whitespace runs collapsed to one
   * space, control characters dropped, ends stripped. The result holds no
   * control character at all, because '\n' and '\t' have already become
   * spaces when the control filter runs, and neither end is whitespace.
   */
  function SanitizeForFunPay(text: Option<string>): (r: string)
    ensures text.None? || text == Some("") ==> r == ""
    ensures forall i :: 0 <= i < |r| ==> r[i] as int >= 32
    ensures r != [] ==> !IsSpace(r[0]) && !IsSpace(r[|r| - 1])
  {
    if text.None? || text.value == "" then ""
    else
      var collapsed := CollapseSpaces(StripTags(text.value));
      var kept := DropControls(collapsed);
      var r := Strip(kept);
      PrintableAfterCollapse(StripTags(text.value));
      assert forall i :: 0 <= i < |r| ==> r[i] in kept;
      r
  }

  /** The control filter, run after whitespace is collapsed, leaves only codes >= 32. */
  lemma PrintableAfterCollapse(s: string)
    ensures forall c :: c in DropControls(CollapseSpaces(s)) ==> c as int >= 32
  {
    var collapsed := CollapseSpaces(s);
    forall c | c in DropControls(collapsed)
      ensures c as int >= 32
    {
      var kept := DropControls(collapsed);
      var j :| 0 <= j < |kept| && kept[j] == c;
      assert c in collapsed;
      var k :| 0 <= k < |collapsed| && collapsed[k] == c;
    }
  }

  // ---------------------------------------------------------------- generate_message_hash

  /** A `datetime` value, field by field. */
  datatype DateTime = DateTime(year: int, month: int, day: int, hour: int, minute: int,
                               second: int, microsecond: int)
  {
    predicate Valid()
    {
      1 <= year <= 9999 && 1 <= month <= 12 && 1 <= day <= 31 && 0 <= hour < 24 &&
      0 <= minute < 60 && 0 <= second < 60 && 0 <= microsecond < 1000000
    }

    /** Same calendar minute: what `strftime('%Y%m%d%H%M')` keeps. */
    predicate SameMinute(other: DateTime)
    {
      year == other.year && month == other.month && day == other.day &&
      hour == other.hour && minute == other.minute
    }
  }

  function Pow10(k: nat): (p: nat)
    ensures p >= 1
  {
    if k == 0 then 1 else 10 * Pow10(k - 1)
  }

  /** The last `width` decimal digits of `n`: zero-padded for `n < 10^width`. */
  function Pad(n: nat, width: nat): (s: string)
    ensures |s| == width && AllDigits(s)
  {
    if width == 0 then [] else Pad(n / 10, width - 1) + [DigitChar(n % 10)]
  }

  /** `strftime('%Y%m%d%H%M')`. */
  function MinuteStamp(t: DateTime): (s: string)
    requires t.Valid()
    ensures |s| == 12
  {
    Pad(t.year, 4) + Pad(t.month, 2) + Pad(t.day, 2) + Pad(t.hour, 2) + Pad(t.minute, 2)
  }

  /** The string `f"{chat_id}:{text}:{minute stamp}"` that is hashed. */
  function HashKey(chatId: int, text: string, t: DateTime): string
    requires t.Valid()
  {
    IntToStr(chatId) + ":" + text + ":" + MinuteStamp(t)
  }

  /**
   * generate_message_hash: SHA-256 of the key, with the digest function an
   * uninterpreted parameter. Two calls in the same minute for the same chat
   * and text give the same hash.
   */
  function MessageHash(sha256: string -> string, chatId: int, text: string, t: DateTime): (h: string)
    requires t.Valid()
    ensures forall u: DateTime :: u.Valid() && u.SameMinute(t) ==> h == sha256(HashKey(chatId, text, u))
  {
    sha256(HashKey(chatId, text, t))
  }

  lemma {:induction false} PadValue(n: nat, width: nat)
    requires n < Pow10(width)
    ensures DigitsValue(Pad(n, width)) == n
  {
    if width > 0 {
      assert n / 10 < Pow10(width - 1);
      PadValue(n / 10, width - 1);
      var s := Pad(n, width);
      assert s[..|s| - 1] == Pad(n / 10, width - 1);
    }
  }

  lemma PadInjective(a: nat, b: nat, width: nat)
    requires a < Pow10(width) && b < Pow10(width) && Pad(a, width) == Pad(b, width)
    ensures a == b
  {
    PadValue(a, width);
    PadValue(b, width);
  }

  /**
   * The key determines chat, text and minute: two keys are equal exactly
   * when the chat ids, the texts and the calendar minutes are.
   */
  lemma HashKeyInjective(c1: int, x1: string, t1: DateTime, c2: int, x2: string, t2: DateTime)
    requires t1.Valid() && t2.Valid()
    ensures HashKey(c1, x1, t1) == HashKey(c2, x2, t2) <==> c1 == c2 && x1 == x2 && t1.SameMinute(t2)
  {
    var k1, k2 := HashKey(c1, x1, t1), HashKey(c2, x2, t2);
    if k1 == k2 {
      var s1, s2 := MinuteStamp(t1), MinuteStamp(t2);
      assert s1 == k1[|k1| - 12..] && s2 == k2[|k2| - 12..];
      StampInjective(t1, t2);
      var a1, a2 := IntToStr(c1), IntToStr(c2);
      var p1, p2 := a1 + ":" + x1, a2 + ":" + x2;
      assert p1 == k1[..|k1| - 13] && p2 == k2[..|k2| - 13];
      SplitAtFirstColon(a1, x1, a2, x2);
      IntToStrRoundTrip(c1);
      IntToStrRoundTrip(c2);
    }
  }

  /** Equal minute stamps mean the same calendar minute. */
  lemma StampInjective(t1: DateTime, t2: DateTime)
    requires t1.Valid() && t2.Valid() && MinuteStamp(t1) == MinuteStamp(t2)
    ensures t1.SameMinute(t2)
  {
    var s1, s2 := MinuteStamp(t1), MinuteStamp(t2);
    assert s1[0..4] == Pad(t1.year, 4) && s2[0..4] == Pad(t2.year, 4);
    assert s1[4..6] == Pad(t1.month, 2) && s2[4..6] == Pad(t2.month, 2);
    assert s1[6..8] == Pad(t1.day, 2) && s2[6..8] == Pad(t2.day, 2);
    assert s1[8..10] == Pad(t1.hour, 2) && s2[8..10] == Pad(t2.hour, 2);
    assert s1[10..12] == Pad(t1.minute, 2) && s2[10..12] == Pad(t2.minute, 2);
    PadInjective(t1.year, t2.year, 4);
    PadInjective(t1.month, t2.month, 2);
    PadInjective(t1.day, t2.day, 2);
    PadInjective(t1.hour, t2.hour, 2);
    PadInjective(t1.minute, t2.minute, 2);
  }

  lemma SplitAtFirstColon(a1: string, x1: string, a2: string, x2: string)
    requires ':' !in a1 && ':' !in a2 && a1 + ":" + x1 == a2 + ":" + x2
    ensures a1 == a2 && x1 == x2
  {
    var p := a1 + ":" + x1;
    ColonAt(a1, x1);
    ColonAt(a2, x2);
    assert a1 == p[..|a1|] == a2;
    assert x1 == p[|a1| + 1..] == x2;
  }

  lemma ColonAt(a: string, x: string)
    requires ':' !in a
    ensures IndexOf(a + ":" + x, ':') == Some(|a|)
  {
    var s := a + ":" + x;
    assert s[|a|] == ':';
    var r := IndexOf(s, ':');
    assert forall k :: 0 <= k < |a| ==> s[k] == a[k];
  }

  // ---------------------------------------------------------------- parse_order_id

  /** A '#' at index i immediately followed by a digit. */
  predicate HashDigitAt(s: string, i: int)
  {
    0 <= i && i + 1 < |s| && s[i] == '#' && IsDigit(s[i + 1])
  }

  /** The maximal run of digits at the front of `s`. */
  function DigitRun(s: string): (r: string)
    ensures AllDigits(r) && |r| <= |s| && r == s[..|r|]
    ensures |r| < |s| ==> !IsDigit(s[|r|])
    ensures s != [] && IsDigit(s[0]) ==> r != []
  {
    if s != [] && IsDigit(s[0]) then [s[0]] + DigitRun(s[1..]) else []
  }

  /** `re.search(r'#(\d+)', text)` and its first group. */
  function ParseOrderId(s: string): Option<string>
  {
    if |s| >= 2 && s[0] == '#' && IsDigit(s[1]) then Some(DigitRun(s[1..]))
    else if s == [] then None
    else ParseOrderId(s[1..])
  }

  /**
   * The parsed id is the whole digit run after the leftmost '#' that is
   * directly followed by a digit; there is no id exactly when no such '#'
   * exists.
   */
  lemma {:induction false} ParseOrderIdSpec(s: string)
    ensures ParseOrderId(s).None? <==> forall i :: !HashDigitAt(s, i)
    ensures ParseOrderId(s).Some? ==>
      exists i :: HashDigitAt(s, i) && (forall j :: 0 <= j < i ==> !HashDigitAt(s, j)) &&
        ParseOrderId(s).value == DigitRun(s[i + 1..])
  {
    if |s| >= 2 && s[0] == '#' && IsDigit(s[1]) {
      assert HashDigitAt(s, 0);
      assert s[1..] == s[0 + 1..];
    } else if s != [] {
      ParseOrderIdSpec(s[1..]);
      assert !HashDigitAt(s, 0);
      forall i | HashDigitAt(s[1..], i) ensures HashDigitAt(s, i + 1) { }
      forall i | HashDigitAt(s, i) ensures HashDigitAt(s[1..], i - 1) { }
      if ParseOrderId(s[1..]).Some? {
        var i :| HashDigitAt(s[1..], i) && (forall j :: 0 <= j < i ==> !HashDigitAt(s[1..], j)) &&
          ParseOrderId(s[1..]).value == DigitRun(s[1..][i + 1..]);
        assert s[1..][i + 1..] == s[i + 2..];
        assert HashDigitAt(s, i + 1);
        forall j | 0 <= j < i + 1 ensures !HashDigitAt(s, j) {
          if j > 0 { assert !HashDigitAt(s[1..], j - 1); }
        }
      }
    }
  }

  /** A text with a '#'-number and nothing id-like before it yields that number. */
  lemma ParseOrderIdFront(prefix: string, digits: string, rest: string)
    requires forall i :: !HashDigitAt(prefix + "#", i)
    requires digits != [] && AllDigits(digits) && (rest == [] || !IsDigit(rest[0]))
    ensures ParseOrderId(prefix + "#" + digits + rest) == Some(digits)
  {
    var s := prefix + "#" + digits + rest;
    ParseOrderIdSpec(s);
    assert HashDigitAt(s, |prefix|);
    forall j | 0 <= j < |prefix| ensures !HashDigitAt(s, j) {
      assert !HashDigitAt(prefix + "#", j);
      if j + 1 < |prefix| + 1 {
        assert s[j] == (prefix + "#")[j] && s[j + 1] == (prefix + "#")[j + 1];
      }
    }
    var i :| HashDigitAt(s, i) && (forall j :: 0 <= j < i ==> !HashDigitAt(s, j)) &&
      ParseOrderId(s).value == DigitRun(s[i + 1..]);
    assert i == |prefix|;
    DigitRunOf(digits, rest);
    assert s[i + 1..] == digits + rest;
  }

  lemma {:induction false} DigitRunOf(digits: string, rest: string)
    requires AllDigits(digits) && (rest == [] || !IsDigit(rest[0]))
    ensures DigitRun(digits + rest) == digits
  {
    if digits != [] {
      DigitRunOf(digits[1..], rest);
      assert (digits + rest)[1..] == digits[1..] + rest;
    }
  }

  // ---------------------------------------------------------------- time_ago

  /** The wording time_ago chooses, before it is rendered. */
  datatype Ago = Unknown | JustNow | MinutesAgo(n: nat) | HoursAgo(n: nat) | DaysAgo(n: nat)

  /**
   * time_ago on the elapsed whole seconds (None when the timestamp is
   * missing). The number shown is the elapsed time truncated to whole
   * minutes, hours or days.
   */
  function ClassifyAgo(elapsed: Option<int>): (r: Ago)
    ensures r == Unknown <==> elapsed.None?
    ensures r == JustNow <==> elapsed.Some? && elapsed.value < 60
    ensures r.MinutesAgo? <==> elapsed.Some? && 60 <= elapsed.value < 3600
    ensures r.HoursAgo? <==> elapsed.Some? && 3600 <= elapsed.value < 86400
    ensures r.DaysAgo? <==> elapsed.Some? && 86400 <= elapsed.value
    ensures r.MinutesAgo? ==> r.n * 60 <= elapsed.value < r.n * 60 + 60 && 1 <= r.n < 60
    ensures r.HoursAgo? ==> r.n * 3600 <= elapsed.value < r.n * 3600 + 3600 && 1 <= r.n < 24
    ensures r.DaysAgo? ==> r.n * 86400 <= elapsed.value < r.n * 86400 + 86400 && r.n >= 1
  {
    match elapsed
    case None => Unknown
    case Some(s) =>
      if s < 60 then JustNow
      else if s < 3600 then MinutesAgo(s / 60)
      else if s < 86400 then HoursAgo(s / 3600)
      else DaysAgo(s / 86400)
  }

  function RenderAgo(a: Ago): string
  {
    match a
    case Unknown => "неизвестно"
    case JustNow => "только что"
    case MinutesAgo(n) => IntToStr(n) + " мин. назад"
    case HoursAgo(n) => IntToStr(n) + " ч. назад"
    case DaysAgo(n) => IntToStr(n) + " дн. назад"
  }

  /** time_ago(dt) with "now" passed in, both as whole seconds. */
  function TimeAgo(dt: Option<int>, now: int): string
  {
    RenderAgo(ClassifyAgo(if dt.None? then None else Some(now - dt.value)))
  }
}
