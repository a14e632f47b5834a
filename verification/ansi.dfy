/** The escape stripper (crates/svd-daemon/src/strategy/kwin/kscreen.rs). */
module Ansi {

  const ESC: char := '\U{1B}'

  /** The bytes that end a control sequence (ECMA-48, section 5.4). */
  predicate IsFinal(c: char) { '@' <= c <= '~' }

  /** What is left of a control sequence's rest once its final byte has been consumed. */
  function AfterFinal(s: string): (t: string)
    ensures |t| <= |s|
  {
    if s == "" then "" else if IsFinal(s[0]) then s[1..] else AfterFinal(s[1..])
  }

  /** The text without its control sequences; a lone escape goes, the character after it stays. */
  function Strip(s: string): string
    decreases |s|
  {
    if s == "" then ""
    else if s[0] != ESC then [s[0]] + Strip(s[1..])
    else if |s| == 1 then ""
    else if s[1] == '[' then Strip(AfterFinal(s[2..]))
    else [s[1]] + Strip(s[2..])
  }

  method StripAnsiCsi(s: string) returns (out: string)
    ensures out == Strip(s)
  {
    out := "";
    var rest := s;
    while rest != ""
      invariant out + Strip(rest) == Strip(s)
      decreases |rest|
    {
      var ch := rest[0];
      rest := rest[1..];
      if ch != ESC {
        out := out + [ch];
        continue;
      }
      if rest != "" {
        var next := rest[0];
        rest := rest[1..];
        if next == '[' {
          rest := SkipToFinal(rest);
        } else {
          out := out + [next];
        }
      }
    }
  }

  /** The inner loop: consumes characters up to and including the first final byte. */
  method SkipToFinal(s: string) returns (rest: string)
    ensures rest == AfterFinal(s)
  {
    rest := s;
    while rest != ""
      invariant AfterFinal(rest) == AfterFinal(s)
      decreases |rest|
    {
      var inner := rest[0];
      rest := rest[1..];
      if IsFinal(inner) {
        return;
      }
    }
  }

  /** A terminal stream: characters to be shown, and complete control sequences between them. */
  datatype Piece = Visible(c: char) | Control(body: string, final: char) {
    predicate Valid() {
      match this
      case Visible(c) => c != ESC
      case Control(body, final) => IsFinal(final) && forall i | 0 <= i < |body| :: !IsFinal(body[i])
    }

    function Raw(): string {
      match this
      case Visible(c) => [c]
      case Control(body, final) => [ESC, '['] + body + [final]
    }

    function Shown(): string { if Visible? then [c] else "" }
  }

  function Raw(pieces: seq<Piece>): string {
    if pieces == [] then "" else pieces[0].Raw() + Raw(pieces[1..])
  }

  function Shown(pieces: seq<Piece>): string {
    if pieces == [] then "" else pieces[0].Shown() + Shown(pieces[1..])
  }

  lemma {:induction false} AfterFinalOf(body: string, final: char, rest: string)
    requires IsFinal(final) && forall i | 0 <= i < |body| :: !IsFinal(body[i])
    ensures AfterFinal(body + [final] + rest) == rest
  {
    if body != "" {
      assert (body + [final] + rest)[1..] == body[1..] + [final] + rest;
      AfterFinalOf(body[1..], final, rest);
    }
  }

  lemma StripOfPiece(piece: Piece, rest: string)
    requires piece.Valid()
    ensures Strip(piece.Raw() + rest) == piece.Shown() + Strip(rest)
  {
    var s := piece.Raw() + rest;
    match piece
    case Visible(c) =>
      assert s[1..] == rest;
    case Control(body, final) =>
      AfterFinalOf(body, final, rest);
      assert s[2..] == body + [final] + rest;
  }

  /** Complete control sequences, anywhere in a text without escapes, are erased without a trace. */
  lemma {:induction false} ControlsAreErased(pieces: seq<Piece>)
    requires forall i | 0 <= i < |pieces| :: pieces[i].Valid()
    ensures Strip(Raw(pieces)) == Shown(pieces)
  {
    if pieces != [] {
      ControlsAreErased(pieces[1..]);
      StripOfPiece(pieces[0], Raw(pieces[1..]));
    }
  }

  /** Scanning meets an escape that starts no control sequence and is followed by a second escape. */
  predicate MeetsDoubledEscape(s: string)
    decreases |s|
  {
    && s != ""
    && if s[0] != ESC then MeetsDoubledEscape(s[1..])
       else |s| > 1 && if s[1] == '[' then MeetsDoubledEscape(AfterFinal(s[2..]))
                       else s[1] == ESC || MeetsDoubledEscape(s[2..])
  }

  lemma {:induction false} EscapeSurvivesIff(s: string)
    ensures ESC in Strip(s) <==> MeetsDoubledEscape(s)
    decreases |s|
  {
    if s == "" {
    } else if s[0] != ESC {
      EscapeSurvivesIff(s[1..]);
    } else if |s| > 1 {
      if s[1] == '[' {
        EscapeSurvivesIff(AfterFinal(s[2..]));
      } else {
        EscapeSurvivesIff(s[2..]);
      }
    }
  }

  lemma {:induction false} StripLength(s: string)
    ensures |Strip(s)| <= |s|
    ensures ESC in s ==> |Strip(s)| < |s|
    ensures ESC !in s ==> Strip(s) == s
    decreases |s|
  {
    if s == "" {
    } else if s[0] != ESC {
      StripLength(s[1..]);
      assert s == [s[0]] + s[1..];
    } else if |s| > 1 {
      if s[1] == '[' {
        StripLength(AfterFinal(s[2..]));
      } else {
        StripLength(s[2..]);
      }
    }
  }

  /** Stripping twice changes nothing exactly when no doubled escape is met. */
  lemma StripIsIdempotentIff(s: string)
    ensures Strip(Strip(s)) == Strip(s) <==> !MeetsDoubledEscape(s)
  {
    EscapeSurvivesIff(s);
    StripLength(Strip(s));
  }

  /** A text that violates it: the first pass leaves a control sequence for the second. */
  lemma StripIsNotIdempotent()
    ensures Strip([ESC, ESC, '[', 'm', 'x']) == [ESC, '[', 'm', 'x']
    ensures Strip([ESC, '[', 'm', 'x']) == ['x']
  {
    var t := [ESC, ESC, '[', 'm', 'x'];
    assert t[2..] == ['[', 'm', 'x'];
    StripLength(['[', 'm', 'x']);
    var u := [ESC, '[', 'm', 'x'];
    assert u[2..] == ['m', 'x'] && AfterFinal(['m', 'x']) == ['x'];
  }
}
