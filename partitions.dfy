/** Partition keys: the `year, month, day = date.split("-")` step every stage
    performs, and the facts about '/'-separated keys the stages share. */
module Partitions {
  import opened Wrappers
  import opened Text
  import opened Dates

  /** `year, month, day = date.split("-")`: ValueError unless there are exactly three fields. */
  function DateFields(date: string): (r: Result<(string, string, string)>)
    ensures r.Ok? <==> |Split(date, '-')| == 3
    ensures r.Err? ==> r.error == ValueError
    ensures r.Ok? ==> r.value.0 + "-" + r.value.1 + "-" + r.value.2 == date
    ensures r.Ok? ==> '-' !in r.value.0 && '-' !in r.value.1 && '-' !in r.value.2
  {
    var parts := Split(date, '-');
    if |parts| == 3 then
      assert Join(parts, '-') == parts[0] + "-" + parts[1] + "-" + parts[2] by {
        assert parts[1..][1..] == [parts[2]];
        assert Join(parts[1..], '-') == parts[1] + "-" + parts[2];
      }
      Ok((parts[0], parts[1], parts[2]))
    else Err(ValueError)
  }

  lemma JoinCons(x: string, rest: seq<string>, sep: char)
    requires |rest| >= 1
    ensures Join([x] + rest, sep) == x + [sep] + Join(rest, sep)
  {
    assert ([x] + rest)[1..] == rest;
  }

  /** Five segments joined by '/', written out. */
  lemma JoinFive(a: string, b: string, c: string, d: string, e: string)
    ensures Join([a, b, c, d, e], '/') == a + "/" + b + "/" + c + "/" + d + "/" + e
  {
    JoinCons(d, [e], '/');
    JoinCons(c, [d, e], '/');
    JoinCons(b, [c, d, e], '/');
    JoinCons(a, [b, c, d, e], '/');
  }

  /** Six segments joined by '/', written out. */
  lemma JoinSix(a: string, b: string, c: string, d: string, e: string, f: string)
    ensures Join([a, b, c, d, e, f], '/') == a + "/" + b + "/" + c + "/" + d + "/" + e + "/" + f
  {
    JoinFive(b, c, d, e, f);
    JoinCons(a, [b, c, d, e, f], '/');
  }

  /** Regrouping an f-string of three `name=value` segments and a last
      segment: the literal text between the values can be cut at each '/'. */
  lemma SegmentRegroup3(a: string, n1: string, v1: string, n2: string, v2: string, n3: string, v3: string, z: string)
    ensures a + "/" + n1 + v1 + ("/" + n2) + v2 + ("/" + n3) + v3 + ("/" + z)
      == a + "/" + (n1 + v1) + "/" + (n2 + v2) + "/" + (n3 + v3) + "/" + z
  {
  }

  /** The same with four `name=value` segments. */
  lemma SegmentRegroup4(a: string, n1: string, v1: string, n2: string, v2: string, n3: string, v3: string,
                        n4: string, v4: string, z: string)
    ensures a + "/" + n1 + v1 + ("/" + n2) + v2 + ("/" + n3) + v3 + ("/" + n4) + v4 + ("/" + z)
      == a + "/" + (n1 + v1) + "/" + (n2 + v2) + "/" + (n3 + v3) + "/" + (n4 + v4) + "/" + z
  {
  }

  /** A formatted date always unpacks, into its zero-padded year, month and day. */
  lemma FormattedFields(d: Date)
    requires Valid(d)
    ensures DateFields(Format(d)) == Ok((Pad(d.year, 4), Pad(d.month, 2), Pad(d.day, 2)))
  {
    FormatSplit(d);
  }

  /** Splitting a joined key gives its segments back when no segment holds the separator. */
  lemma {:induction false} SplitJoin(parts: seq<string>, sep: char)
    requires |parts| >= 1
    requires forall i :: 0 <= i < |parts| ==> sep !in parts[i]
    ensures Split(Join(parts, sep), sep) == parts
  {
    if |parts| == 1 {
      SplitNoSep(parts[0], sep);
    } else {
      SplitJoin(parts[1..], sep);
      SplitCons(parts[0], sep, Join(parts[1..], sep));
      assert [parts[0]] + parts[1..] == parts;
    }
  }

  predicate DigitsOnly(s: string) {
    forall i :: 0 <= i < |s| ==> IsDigit(s[i])
  }

  lemma PadDigits(n: nat, w: nat)
    ensures DigitsOnly(Pad(n, w)) && '/' !in Pad(n, w) && '=' !in Pad(n, w) && '-' !in Pad(n, w)
  {
    var p := Pad(n, w);
    assert forall i :: 0 <= i < |p| ==> IsDigit(p[i]);
  }

  /** Equal "name=" segments carry equal values. */
  lemma SegmentValue(name: string, a: string, b: string)
    requires name + a == name + b
    ensures a == b
  {
    assert a == (name + a)[|name|..];
    assert b == (name + b)[|name|..];
  }

  /** Equal zero-padded fields come from equal numbers. */
  lemma PadInjective(x: nat, y: nat, w: nat)
    requires Pad(x, w) == Pad(y, w)
    ensures x == y
  {
    PadValue(x, w);
    PadValue(y, w);
  }
}
