/** Timeouts as `limactl` reads them (src/lima/instance.rs). */
module LimaTimeout {

  import opened Common
  import opened Decimal

  function Effective(seconds: nat): nat {
    if seconds < 1 then 1 else seconds
  }

  function Part(n: nat, unit: char): string {
    Render(n) + [unit]
  }

  predicate IsUnit(unit: char) {
    unit == 'h' || unit == 'm' || unit == 's'
  }

  function InSeconds(n: nat, unit: char): nat {
    if unit == 'h' then 3600 * n else if unit == 'm' then 60 * n else n
  }

  function Digits(s: string): (r: string)
    ensures r <= s && AllDigits(r)
  {
    if s != [] && IsDigitChar(s[0]) then [s[0]] + Digits(s[1..]) else []
  }

  /** A duration is one or more numbers, each with a unit. */
  function ReadDuration(s: string): Option<nat>
    decreases |s|
  {
    var digits := Digits(s);
    var rest := s[|digits|..];
    if digits == [] || rest == [] || !IsUnit(rest[0]) then None
    else if |rest| == 1 then Some(InSeconds(Value(digits), rest[0]))
    else match ReadDuration(rest[1..])
      case None => None
      case Some(more) => Some(InSeconds(Value(digits), rest[0]) + more)
  }

  lemma {:induction false} DigitsBefore(digits: string, rest: string)
    requires AllDigits(digits) && (rest == [] || !IsDigitChar(rest[0]))
    ensures Digits(digits + rest) == digits
  {
    if digits == [] {
      assert [] + rest == rest;
    } else {
      assert (digits + rest)[1..] == digits[1..] + rest;
      DigitsBefore(digits[1..], rest);
    }
  }

  /** The digits at the front of a part, and what is after its unit. */
  lemma PartSplits(n: nat, unit: char, rest: string)
    requires IsUnit(unit)
    ensures var s := Part(n, unit) + rest;
      Digits(s) == Render(n) && s[|Render(n)|..] == [unit] + rest && Value(Render(n)) == n
  {
    assert Part(n, unit) + rest == Render(n) + ([unit] + rest);
    DigitsBefore(Render(n), [unit] + rest);
    RenderReadsBack(n);
  }

  lemma ReadLast(n: nat, unit: char)
    requires IsUnit(unit)
    ensures ReadDuration(Part(n, unit)) == Some(InSeconds(n, unit))
  {
    PartSplits(n, unit, []);
    assert Part(n, unit) + [] == Part(n, unit) && [unit] + [] == [unit];
  }

  lemma ReadNext(n: nat, unit: char, rest: string)
    requires IsUnit(unit) && rest != [] && ReadDuration(rest).Some?
    ensures ReadDuration(Part(n, unit) + rest) == Some(InSeconds(n, unit) + ReadDuration(rest).value)
  {
    hide ReadDuration;
    PartSplits(n, unit, rest);
    assert ([unit] + rest)[1..] == rest;
    ReadFront(Part(n, unit) + rest, Render(n), [unit] + rest);
  }

  lemma ReadFront(s: string, digits: string, after: string)
    requires Digits(s) == digits != [] && s[|digits|..] == after && |after| > 1 && IsUnit(after[0])
    requires ReadDuration(after[1..]).Some?
    ensures AllDigits(digits)
    ensures ReadDuration(s) == Some(InSeconds(Value(digits), after[0]) + ReadDuration(after[1..]).value)
  {
    hide Digits, Value, InSeconds;
  }

  lemma PartsOfTotal(total: nat)
    ensures 3600 * (total / 3600) + 60 * (total % 3600 / 60) + total % 60 == total
  {
    assert total % 3600 == total - 3600 * (total / 3600);
    assert total % 3600 % 60 == total % 60;
  }

  /** A part that is zero is left out. */
  function Unless0(n: nat, unit: char): string {
    if n > 0 then Part(n, unit) else []
  }

  /** Hours, then less than an hour of minutes, then less than a minute of seconds, without parts that are zero. */
  ghost predicate IsClock(rendered: string, seconds: nat) {
    exists hours: nat, minutes: nat, secs: nat :: IsClockOf(rendered, hours, minutes, secs) &&
      3600 * hours + 60 * minutes + secs == seconds
  }

  predicate IsClockOf(rendered: string, hours: nat, minutes: nat, secs: nat) {
    && minutes < 60 && secs < 60
    && rendered == Unless0(hours, 'h') + (Unless0(minutes, 'm') + (Unless0(secs, 's') + []))
  }

  /** `format_lima_timeout`: the text reads back as the timeout, but never as less than a second. */
  method FormatLimaTimeout(seconds: nat) returns (rendered: string)
    ensures ReadDuration(rendered) == Some(if seconds == 0 then 1 else seconds)
    ensures IsClock(rendered, if seconds == 0 then 1 else seconds)
  {
    var total := Effective(seconds);
    var hours, minutes, secs := total / 3600, total % 3600 / 60, total % 60;
    PartsOfTotal(total);
    ReadParts(hours, minutes, secs);
    rendered := RenderParts(hours, minutes, secs);
    assert IsClockOf(rendered, hours, minutes, secs);
  }

  /** Hours and minutes that are not zero; seconds that are not, or when there is nothing else. */
  method RenderParts(hours: nat, minutes: nat, secs: nat) returns (rendered: string)
    requires hours > 0 || minutes > 0 || secs > 0
    ensures rendered == Unless0(hours, 'h') + (Unless0(minutes, 'm') + (Unless0(secs, 's') + []))
    ensures rendered != []
  {
    rendered := [];
    if hours > 0 { rendered := rendered + Part(hours, 'h'); }
    if minutes > 0 { rendered := rendered + Part(minutes, 'm'); }
    if secs > 0 || rendered == [] { rendered := rendered + Part(secs, 's'); }
  }

  /** Nothing at all reads as no time; anything else as `limactl` reads it. */
  predicate ReadsAs(s: string, seconds: nat) {
    if s == [] then seconds == 0 else ReadDuration(s) == Some(seconds)
  }

  lemma PartBefore(n: nat, unit: char, rest: string, more: nat)
    requires IsUnit(unit) && ReadsAs(rest, more)
    ensures ReadsAs(Unless0(n, unit) + rest, InSeconds(n, unit) + more)
  {
    hide ReadDuration, Render, Digits, Value;
    if n == 0 {
      assert [] + rest == rest;
    } else if rest == [] {
      LastPart(n, unit);
    } else {
      ReadNext(n, unit, rest);
    }
  }

  lemma LastPart(n: nat, unit: char)
    requires IsUnit(unit)
    ensures ReadDuration(Part(n, unit) + []) == Some(InSeconds(n, unit))
  {
    assert Part(n, unit) + [] == Part(n, unit);
    ReadLast(n, unit);
  }

  lemma ReadParts(hours: nat, minutes: nat, secs: nat)
    ensures ReadsAs(Unless0(hours, 'h') + (Unless0(minutes, 'm') + (Unless0(secs, 's') + [])),
                    3600 * hours + (60 * minutes + (secs + 0)))
  {
    hide ReadDuration, Render, Part, Digits, Value;
    PartBefore(secs, 's', [], 0);
    PartBefore(minutes, 'm', Unless0(secs, 's') + [], secs + 0);
    PartBefore(hours, 'h', Unless0(minutes, 'm') + (Unless0(secs, 's') + []), 60 * minutes + (secs + 0));
  }
}
