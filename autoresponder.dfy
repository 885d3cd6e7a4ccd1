/**
 * The autoresponder of autoresponder/autoresponder.py: when enabled, the
 * response of the first template that fires, with "{time}", "{date}" and
 * "{datetime}" filled in, and the usage and response counters. The three
 * strftime renderings of the current time are passed in.
 */
module Responder {
  import opened Common
  import Store
  import Templates

  const TimeVar := "{time}"
  const DateVar := "{date}"
  const DateTimeVar := "{datetime}"

  /** The current time as `_process_variables` renders it: "%H:%M", "%d.%m.%Y" and "%d.%m.%Y %H:%M". */
  datatype Clock = Clock(time: string, date: string, dateTime: string)

  /** Python's `s.replace(pat, val)`: non-overlapping occurrences, left to right. */
  function Replace(s: string, pat: string, val: string): string
    requires |pat| > 0
    decreases |s|
  {
    if |s| < |pat| then s
    else if s[..|pat|] == pat then val + Replace(s[|pat|..], pat, val)
    else [s[0]] + Replace(s[1..], pat, val)
  }

  /** `_process_variables`: the three replacements in the order the dictionary lists them. */
  function ProcessVariables(text: string, clock: Clock): string
  {
    Replace(Replace(Replace(text, TimeVar, clock.time), DateVar, clock.date), DateTimeVar, clock.dateTime)
  }

  /** A response template as literal text and the three slots. */
  datatype Piece = Lit(s: string) | TimeSlot | DateSlot | DateTimeSlot

  /** The template text of the pieces. */
  function Render(ps: seq<Piece>): string
  {
    Stage(ps, 0, Clock("", "", ""))
  }

  /** The intended response: every slot replaced by its rendering of the clock. */
  function Fill(ps: seq<Piece>, clock: Clock): string
  {
    Stage(ps, 3, clock)
  }

  /** The slot's position in the replacement order. */
  function Slot(p: Piece): nat
    requires !p.Lit?
  {
    match p
    case TimeSlot => 0
    case DateSlot => 1
    case DateTimeSlot => 2
  }

  function Name(k: nat): string
    requires k < 3
  {
    [TimeVar, DateVar, DateTimeVar][k]
  }

  function Value(k: nat, clock: Clock): string
    requires k < 3
  {
    [clock.time, clock.date, clock.dateTime][k]
  }

  /** The text after the first k replacements: slots before k hold their value, the others their name. */
  function Stage(ps: seq<Piece>, k: nat, clock: Clock): string
    requires k <= 3
  {
    if ps == [] then ""
    else
      (match ps[0]
       case Lit(s) => s
       case _ => if Slot(ps[0]) < k then Value(Slot(ps[0]), clock) else Name(Slot(ps[0])))
      + Stage(ps[1..], k, clock)
  }

  predicate BraceFree(s: string)
  {
    '{' !in s
  }

  /** Literal text without braces and renderings without braces (strftime gives digits and punctuation). */
  predicate Plain(ps: seq<Piece>, clock: Clock)
  {
    (forall i :: 0 <= i < |ps| && ps[i].Lit? ==> BraceFree(ps[i].s)) &&
    BraceFree(clock.time) && BraceFree(clock.date) && BraceFree(clock.dateTime)
  }

  /** No occurrence of a "{"-pattern starts in a brace-free prefix. */
  lemma {:induction false} ReplaceSkipsPlain(a: string, b: string, pat: string, val: string)
    requires |pat| > 0 && pat[0] == '{' && BraceFree(a)
    ensures Replace(a + b, pat, val) == a + Replace(b, pat, val)
    decreases |a|
  {
    if a != [] {
      var s := a + b;
      if |s| >= |pat| {
        assert s[..|pat|][0] == a[0] != pat[0];
        assert s[1..] == a[1..] + b;
        ReplaceSkipsPlain(a[1..], b, pat, val);
        calc {
          Replace(s, pat, val);
          [a[0]] + Replace(a[1..] + b, pat, val);
          [a[0]] + (a[1..] + Replace(b, pat, val));
          ([a[0]] + a[1..]) + Replace(b, pat, val);
          { assert [a[0]] + a[1..] == a; }
          a + Replace(b, pat, val);
        }
      } else {
        assert |b| < |pat|;
      }
    } else {
      assert a + b == b;
    }
  }

  lemma ReplaceAtName(b: string, pat: string, val: string)
    requires |pat| > 0
    ensures Replace(pat + b, pat, val) == val + Replace(b, pat, val)
  {
    var s := pat + b;
    assert s[..|pat|] == pat && s[|pat|..] == b;
  }

  /** A slot name followed by anything does not start with another slot name. */
  lemma NameNotPrefix(j: nat, k: nat, b: string)
    requires j < 3 && k < 3 && j != k && |Name(j) + b| >= |Name(k)|
    ensures (Name(j) + b)[..|Name(k)|] != Name(k)
  {
    var i := if j == 0 || k == 0 then 1 else 5;
    assert Name(j)[i] != Name(k)[i];
    assert (Name(j) + b)[..|Name(k)|][i] == Name(j)[i];
  }

  /** Replacing one slot name passes over another slot name unchanged. */
  lemma ReplaceSkipsName(j: nat, k: nat, b: string, val: string)
    requires j < 3 && k < 3 && j != k
    ensures Replace(Name(j) + b, Name(k), val) == Name(j) + Replace(b, Name(k), val)
  {
    var q, pat := Name(j), Name(k);
    var s := q + b;
    if |s| >= |pat| {
      NameNotPrefix(j, k, b);
      assert s[1..] == q[1..] + b;
      assert BraceFree(q[1..]);
      ReplaceSkipsPlain(q[1..], b, pat, val);
      calc {
        Replace(s, pat, val);
        [q[0]] + Replace(q[1..] + b, pat, val);
        [q[0]] + (q[1..] + Replace(b, pat, val));
        { assert [q[0]] + q[1..] == q; }
        q + Replace(b, pat, val);
      }
    }
  }

  /** The k-th replacement turns stage k into stage k + 1. */
  lemma {:induction false} ReplaceStep(ps: seq<Piece>, k: nat, clock: Clock)
    requires k < 3 && Plain(ps, clock)
    ensures Replace(Stage(ps, k, clock), Name(k), Value(k, clock)) == Stage(ps, k + 1, clock)
  {
    if ps != [] {
      var rest := Stage(ps[1..], k, clock);
      assert Plain(ps[1..], clock) by {
        forall i | 0 <= i < |ps[1..]| && ps[1..][i].Lit? ensures BraceFree(ps[1..][i].s) {
          assert ps[1..][i] == ps[i + 1];
        }
      }
      ReplaceStep(ps[1..], k, clock);
      var pat, val := Name(k), Value(k, clock);
      if ps[0].Lit? {
        ReplaceSkipsPlain(ps[0].s, rest, pat, val);
      } else {
        var j := Slot(ps[0]);
        if j < k {
          ReplaceSkipsPlain(Value(j, clock), rest, pat, val);
        } else if j == k {
          ReplaceAtName(rest, pat, val);
        } else {
          ReplaceSkipsName(j, k, rest, val);
        }
      }
    }
  }

  /**
   * _process_variables fills every slot of a template with its rendering
   * of the clock, as long as neither the literal text nor the renderings
   * contain braces.
   */
  lemma ProcessVariablesFills(ps: seq<Piece>, clock: Clock)
    requires Plain(ps, clock)
    ensures ProcessVariables(Render(ps), clock) == Fill(ps, clock)
  {
    assert Stage(ps, 0, clock) == Render(ps) by {
      StageZero(ps, clock);
    }
    ReplaceStep(ps, 0, clock);
    ReplaceStep(ps, 1, clock);
    ReplaceStep(ps, 2, clock);
  }

  /** Stage 0 does not depend on the clock. */
  lemma {:induction false} StageZero(ps: seq<Piece>, clock: Clock)
    ensures Stage(ps, 0, clock) == Stage(ps, 0, Clock("", "", ""))
  {
    if ps != [] {
      StageZero(ps[1..], clock);
    }
  }

  /** `pat in s`: some suffix of `s` starts with `pat`. */
  predicate Occurs(pat: string, s: string)
  {
    exists i :: 0 <= i <= |s| && pat <= s[i..]
  }

  /** A text without an occurrence has a tail without one. */
  lemma NoneInTail(pat: string, s: string)
    requires s != []
    ensures !Occurs(pat, s) ==> !Occurs(pat, s[1..])
  {
    var t := s[1..];
    if Occurs(pat, t) {
      var i :| 0 <= i <= |t| && pat <= t[i..];
      assert s[i + 1..] == t[i..];
    }
  }

  /** `replace` leaves a text without an occurrence of the pattern unchanged. */
  lemma {:induction false} ReplaceAbsent(s: string, pat: string, val: string)
    requires |pat| > 0 && !Occurs(pat, s)
    ensures Replace(s, pat, val) == s
    decreases |s|
  {
    if |s| >= |pat| {
      assert s[0..] == s;
      NoneInTail(pat, s);
      ReplaceAbsent(s[1..], pat, val);
      assert [s[0]] + s[1..] == s;
    }
  }

  /**
   * A text in which none of the three placeholders occurs is returned
   * unchanged, whatever else it holds (other "{...}" names included).
   */
  lemma PlainTextUnchanged(text: string, clock: Clock)
    requires !Occurs(TimeVar, text) && !Occurs(DateVar, text) && !Occurs(DateTimeVar, text)
    ensures ProcessVariables(text, clock) == text
  {
    ReplaceAbsent(text, TimeVar, clock.time);
    ReplaceAbsent(text, DateVar, clock.date);
    ReplaceAbsent(text, DateTimeVar, clock.dateTime);
  }

  /** What get_stats reports. */
  datatype ResponderStats = ResponderStats(responsesSent: nat, templatesMatched: nat, enabled: bool)

  class AutoResponder {
    var enabled: bool
    var responsesSent: nat
    var templatesMatched: nat
    const manager: Templates.TemplateManager

    /** A response is only ever counted after its match was. */
    predicate Valid()
      reads this
    {
      responsesSent <= templatesMatched
    }

    constructor (manager: Templates.TemplateManager, enabled: bool)
      ensures Valid()
      ensures this.manager == manager && this.enabled == enabled && responsesSent == templatesMatched == 0
    {
      this.manager := manager;
      this.enabled := enabled;
      responsesSent, templatesMatched := 0, 0;
    }

    /**
     * get_response: disabled, None without consulting the templates. No
     * template firing, None with no counter changed. A match counts as
     * matched at once; its usage is recorded and, if that goes through, the
     * filled-in response is counted and returned; a raised usage update
     * gives None.
     */
    method GetResponse(text: string, search: Templates.Search, clock: Clock, now: int) returns (r: Option<string>)
      requires Valid() && manager.db.Valid()
      modifies this`responsesSent, this`templatesMatched, manager`templatesCache, manager`cacheUpdated,
               manager.db`templates
      ensures Valid() && manager.db.Valid()
      ensures !enabled ==> (r.None? && responsesSent == old(responsesSent) &&
                            templatesMatched == old(templatesMatched) && unchanged(manager) && unchanged(manager.db))
      ensures enabled ==>
        var m := Templates.FirstMatch(manager.templatesCache, text, search);
        templatesMatched == old(templatesMatched) + (if m.Some? then 1 else 0) &&
        (r.Some? <==> m.Some? && manager.db.open) &&
        (r.Some? ==> r.value == ProcessVariables(m.value.response, clock) &&
                     manager.db.templates == Store.WithUse(old(manager.db.templates), m.value.id)) &&
        (r.None? ==> manager.db.templates == old(manager.db.templates)) &&
        responsesSent == old(responsesSent) + (if r.Some? then 1 else 0)
      ensures enabled && old(manager.templatesCache) != [] ==> manager.templatesCache == old(manager.templatesCache)
    {
      if !enabled {
        return None;
      }
      var template := manager.FindMatchingTemplate(text, search, now);
      if template.None? {
        return None;
      }
      templatesMatched := templatesMatched + 1;
      var response := ProcessVariables(template.value.response, clock);
      var recorded := manager.db.IncrementTemplateUsage(template.value.id);
      if !recorded {
        return None;
      }
      responsesSent := responsesSent + 1;
      return Some(response);
    }

    method Enable()
      modifies this`enabled
      ensures enabled
    {
      enabled := true;
    }

    method Disable()
      modifies this`enabled
      ensures !enabled
    {
      enabled := false;
    }

    /** get_stats: the counters and the flag, no more responses than matches. */
    function Stats(): (s: ResponderStats)
      reads this
      requires Valid()
      ensures s.responsesSent <= s.templatesMatched && s.enabled == enabled
    {
      ResponderStats(responsesSent, templatesMatched, enabled)
    }
  }
}
