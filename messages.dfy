/**
  The status lines the dispatcher produces.  Each line of a reply is an
  event; the string variants render events exactly as the f-strings of the
  call manager do ("Call 1 ringing for operator A").
*/
module Messages {

  /** Decimal rendering of an integer, as Python's str() of an int. */
  function NatToString(n: nat): (r: string)
    ensures |r| > 0 && forall i :: 0 <= i < |r| ==> '0' <= r[i] <= '9'
    decreases n
  {
    var d := [(48 + n % 10) as char];
    if n < 10 then d else NatToString(n / 10) + d
  }

  function IntToString(i: int): (r: string)
    ensures |r| > 0 && forall j :: 0 <= j < |r| ==> r[j] == '-' || '0' <= r[j] <= '9'
    ensures r[0] == '-' <==> i < 0
  {
    if i < 0 then "-" + NatToString(-i) else NatToString(i)
  }

  /** Different numbers are rendered differently. */
  lemma {:induction false} NatToStringInjective(a: nat, b: nat)
    requires NatToString(a) == NatToString(b)
    ensures a == b
    decreases a
  {
    var ra, rb := NatToString(a), NatToString(b);
    assert ra[|ra| - 1] as int == 48 + a % 10;
    assert rb[|rb| - 1] as int == 48 + b % 10;
    if a >= 10 && b >= 10 {
      assert NatToString(a / 10) == ra[..|ra| - 1];
      assert NatToString(b / 10) == rb[..|rb| - 1];
      NatToStringInjective(a / 10, b / 10);
    }
  }

  /** Different integers are rendered differently: the sign and then the digits. */
  lemma IntToStringInjective(a: int, b: int)
    requires IntToString(a) == IntToString(b)
    ensures a == b
  {
    if a < 0 && b < 0 {
      assert NatToString(-a) == IntToString(a)[1..] == NatToString(-b);
      NatToStringInjective(-a, -b);
    } else if a >= 0 && b >= 0 {
      NatToStringInjective(a, b);
    }
  }

  /** One line of a reply, named after what happened to the call. */
  datatype Event =
    | Received(call: int)
    | RingingFor(call: int, op: string)
    | Waiting(call: int)
    | AnsweredBy(call: int, op: string)
    | RejectedBy(call: int, op: string)
    | Missed(call: int)
    | Finished(call: int, op: string)
    | IgnoredBy(call: int, op: string)

  /**
    The line of an event: it opens with "Call ", the call id and a space,
    and a line that names an operator ends with the operator's id.
  */
  function Line(e: Event): (r: string)
    ensures var head := "Call " + IntToString(e.call) + " "; |head| < |r| && r[..|head|] == head
    ensures e.RingingFor? || e.AnsweredBy? || e.RejectedBy? || e.IgnoredBy? ==> |e.op| <= |r| && r[|r| - |e.op|..] == e.op
  {
    var head := "Call " + IntToString(e.call) + " ";
    var tail :=
      match e
      case Received(_) => "received"
      case RingingFor(_, op) => "ringing for operator " + op
      case Waiting(_) => "waiting in queue"
      case AnsweredBy(_, op) => "answered by operator " + op
      case RejectedBy(_, op) => "rejected by operator " + op
      case Missed(_) => "missed"
      case Finished(_, op) => "finished and operator " + op + " available"
      case IgnoredBy(_, op) => "ignored by operator " + op;
    assert (head + tail)[..|head|] == head;
    head + tail
  }

  /** The text up to the first space. */
  function Word(t: string): string
  {
    if t == [] || t[0] == ' ' then [] else [t[0]] + Word(t[1..])
  }

  /** A word free of spaces, followed by a space, is read back whole. */
  lemma {:induction false} WordOf(w: string, rest: string)
    requires forall i :: 0 <= i < |w| ==> w[i] != ' '
    ensures Word(w + " " + rest) == w
  {
    if w != [] {
      assert (w + " " + rest)[1..] == w[1..] + " " + rest;
      WordOf(w[1..], rest);
    }
  }

  /** Two heads "Call x " and "Call y " of one line, with x and y free of spaces, name the same x and y. */
  lemma SameHead(r: string, x: string, y: string)
    requires forall i :: 0 <= i < |x| ==> x[i] != ' '
    requires forall i :: 0 <= i < |y| ==> y[i] != ' '
    requires |x| + 6 <= |r| && r[..|x| + 6] == "Call " + x + " "
    requires |y| + 6 <= |r| && r[..|y| + 6] == "Call " + y + " "
    ensures x == y
  {
    assert r[5..] == x + " " + r[|x| + 6..];
    assert r[5..] == y + " " + r[|y| + 6..];
    WordOf(x, r[|x| + 6..]);
    WordOf(y, r[|y| + 6..]);
  }

  /** A line names its call unambiguously: equal lines are about the same call. */
  lemma LineNamesCall(a: Event, b: Event)
    requires Line(a) == Line(b)
    ensures a.call == b.call
  {
    SameHead(Line(a), IntToString(a.call), IntToString(b.call));
    IntToStringInjective(a.call, b.call);
  }

  /** The lines of the events, in order, as the basic variant prints them. */
  function Lines(es: seq<Event>): seq<string>
  {
    if es == [] then [] else [Line(es[0])] + Lines(es[1..])
  }

  /** One printed line per event: the i-th line is the line of the i-th event. */
  lemma {:induction false} LinesPointwise(es: seq<Event>)
    ensures |Lines(es)| == |es|
    ensures forall i :: 0 <= i < |es| ==> Lines(es)[i] == Line(es[i])
  {
    if es != [] {
      LinesPointwise(es[1..]);
    }
  }

  /** Printing two runs of events one after the other prints their lines one after the other. */
  lemma {:induction false} LinesAppend(a: seq<Event>, b: seq<Event>)
    ensures Lines(a + b) == Lines(a) + Lines(b)
  {
    if a == [] {
      assert a + b == b;
    } else {
      assert (a + b)[0] == a[0] && (a + b)[1..] == a[1..] + b;
      LinesAppend(a[1..], b);
    }
  }

  /** Output already printed, then the lines of a, then those of b, is that output followed by the lines of a + b. */
  lemma PrintedInTurn(out: seq<string>, a: seq<Event>, b: seq<Event>)
    ensures out + Lines(a) + Lines(b) == out + Lines(a + b)
  {
    LinesAppend(a, b);
  }

  /** The lines of the events joined by newlines, as the server variants reply. */
  function Render(es: seq<Event>): (r: string)
    ensures r == "" <==> es == []
  {
    if es == [] then "" else if |es| == 1 then Line(es[0]) else Line(es[0]) + "\n" + Render(es[1..])
  }

  /** A reply is its first line, a newline, and the reply of the remaining lines. */
  lemma RenderCons(e: Event, es: seq<Event>)
    requires es != []
    ensures Render([e] + es) == Line(e) + "\n" + Render(es)
  {
    assert ([e] + es)[1..] == es;
  }

  /** Replies join: the lines of a then the lines of b, separated by one newline. */
  lemma {:induction false} RenderAppend(a: seq<Event>, b: seq<Event>)
    requires a != [] && b != []
    ensures Render(a + b) == Render(a) + "\n" + Render(b)
    decreases |a|
  {
    if |a| > 1 {
      assert (a + b)[1..] == a[1..] + b;
      RenderAppend(a[1..], b);
    }
  }
}
