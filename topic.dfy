/**
 * MQTT topic names and topic filters as sequences of topic levels separated by '/'
 * (MQTT 3.1.1, section 4.7). `Split` is Python's `topic.split('/')`, which both handlers
 * apply to the topic of every incoming message.
 */
module Topic {

  const Separator: char := '/'

  /** Python's `s.split('/')`: always at least one level (`"".split('/') == [""]`), no level holds a '/'. */
  function Split(s: string): (levels: seq<string>)
    ensures |levels| >= 1
    ensures forall i :: 0 <= i < |levels| ==> Separator !in levels[i]
    decreases |s|
  {
    if s == [] then [""]
    else
      var rest := Split(s[1..]);
      if s[0] == Separator then [""] + rest
      else [[s[0]] + rest[0]] + rest[1..]
  }

  /** Python's `'/'.join(levels)`: the levels with one separator between neighbours. */
  function Join(levels: seq<string>): string
  {
    if |levels| == 0 then ""
    else if |levels| == 1 then levels[0]
    else levels[0] + [Separator] + Join(levels[1..])
  }

  /** Joining the levels of a split topic gives the topic back. */
  lemma {:induction false} JoinSplit(s: string)
    ensures Join(Split(s)) == s
    decreases |s|
  {
    if s != [] {
      JoinSplit(s[1..]);
      var rest := Split(s[1..]);
      assert s == [s[0]] + s[1..];
      if s[0] == Separator {
        assert ([""] + rest)[1..] == rest;
      } else {
        var levels := [[s[0]] + rest[0]] + rest[1..];
        if |rest| == 1 {
          assert Join(levels) == [s[0]] + rest[0];
        } else {
          assert levels[1..] == rest[1..];
          assert Join(levels) == [s[0]] + (rest[0] + [Separator] + Join(rest[1..]));
        }
      }
    }
  }

  /** A prefix without separators extends the first level of whatever follows it. */
  lemma {:induction false} SplitPrefix(a: string, t: string)
    requires Separator !in a
    ensures Split(a + t) == [a + Split(t)[0]] + Split(t)[1..]
    decreases |a|
  {
    if a == [] {
      assert a + t == t && a + Split(t)[0] == Split(t)[0];
      assert Split(t) == [Split(t)[0]] + Split(t)[1..];
    } else {
      SplitPrefix(a[1..], t);
      var r := Split(a[1..] + t);
      assert (a + t)[0] == a[0] && (a + t)[1..] == a[1..] + t;
      assert Split(a + t) == [[a[0]] + r[0]] + r[1..];
      assert [a[0]] + (a[1..] + Split(t)[0]) == a + Split(t)[0];
    }
  }

  /** Splitting the join of separator-free levels gives the same levels back. */
  lemma {:induction false} SplitJoin(levels: seq<string>)
    requires |levels| >= 1
    requires forall i :: 0 <= i < |levels| ==> Separator !in levels[i]
    ensures Split(Join(levels)) == levels
  {
    if |levels| == 1 {
      SplitPrefix(levels[0], "");
      assert levels[0] + "" == levels[0];
    } else {
      SplitJoin(levels[1..]);
      var t := [Separator] + Join(levels[1..]);
      SplitPrefix(levels[0], t);
      assert t[0] == Separator && t[1..] == Join(levels[1..]);
      assert Split(t) == [""] + levels[1..];
      assert levels[0] + t == Join(levels);
      assert levels[0] + "" == levels[0];
      assert levels == [levels[0]] + levels[1..];
    }
  }

  /** The join of three levels, written out. */
  lemma JoinThree(a: string, b: string, c: string)
    ensures Join([a, b, c]) == a + "/" + b + "/" + c
  {
    var levels := [a, b, c];
    assert levels[1..] == [b, c] && levels[1..][1..] == [c];
    assert Join([b, c]) == b + [Separator] + c;
    assert Join(levels) == a + [Separator] + (b + [Separator] + c);
    assert "/" == [Separator];
  }

  /** The join of four levels, written out. */
  lemma JoinFour(a: string, b: string, c: string, d: string)
    ensures Join([a, b, c, d]) == a + "/" + b + "/" + c + "/" + d
  {
    var levels := [a, b, c, d];
    assert levels[1..] == [b, c, d];
    JoinThree(b, c, d);
  }

  /** A topic without a separator is a single level, so index 1 of its split is out of range. */
  lemma SingleLevel(s: string)
    requires Separator !in s
    ensures Split(s) == [s]
  {
    SplitJoin([s]);
  }

  /**
   * Whether a topic filter matches a topic name, level by level: '+' stands for exactly one
   * level and '#' for all remaining levels, including none (MQTT 3.1.1, section 4.7.1).
   */
  predicate Matches(filter: seq<string>, levels: seq<string>)
  {
    if filter == [] then levels == []
    else if filter[0] == "#" then true
    else levels != [] && (filter[0] == "+" || filter[0] == levels[0]) && Matches(filter[1..], levels[1..])
  }

  /** A filter `{a}/+/{b}` matches exactly the three-level topics `{a}/{anything}/{b}`. */
  lemma MatchesOneWildcardOfThree(a: string, b: string, levels: seq<string>)
    requires a != "#" && a != "+" && b != "#" && b != "+"
    ensures Matches([a, "+", b], levels) <==> |levels| == 3 && levels[0] == a && levels[2] == b
  {
    var f := [a, "+", b];
    assert f[1..] == ["+", b] && f[1..][1..] == [b] && f[1..][1..][1..] == [];
    assert Matches(f, levels) == (levels != [] && a == levels[0] && Matches(f[1..], levels[1..]));
    if |levels| >= 1 {
      assert Matches(f[1..], levels[1..]) == (|levels| >= 2 && Matches(f[1..][1..], levels[1..][1..]));
      if |levels| >= 2 {
        assert Matches(f[1..][1..], levels[1..][1..])
            == (|levels| >= 3 && b == levels[2] && Matches([], levels[1..][1..][1..]));
        if |levels| >= 3 {
          assert levels[1..][1..][1..] == levels[3..];
        }
      }
    }
  }

  /** A filter `{a}/+/{b}/{c}` matches exactly the four-level topics `{a}/{anything}/{b}/{c}`. */
  lemma MatchesOneWildcardOfFour(a: string, b: string, c: string, levels: seq<string>)
    requires a != "#" && a != "+" && b != "#" && b != "+" && c != "#" && c != "+"
    ensures Matches([a, "+", b, c], levels) <==> |levels| == 4 && levels[0] == a && levels[2] == b && levels[3] == c
  {
    var f := [a, "+", b, c];
    assert f[1..] == ["+", b, c] && f[1..][1..] == [b, c] && f[1..][1..][1..] == [c];
    assert f[1..][1..][1..][1..] == [];
    assert Matches(f, levels) == (levels != [] && a == levels[0] && Matches(f[1..], levels[1..]));
    if |levels| >= 1 {
      assert Matches(f[1..], levels[1..]) == (|levels| >= 2 && Matches(f[1..][1..], levels[1..][1..]));
      if |levels| >= 2 {
        assert Matches(f[1..][1..], levels[1..][1..])
            == (|levels| >= 3 && b == levels[2] && Matches(f[1..][1..][1..], levels[1..][1..][1..]));
        if |levels| >= 3 {
          assert Matches(f[1..][1..][1..], levels[1..][1..][1..])
              == (|levels| >= 4 && c == levels[3] && Matches([], levels[1..][1..][1..][1..]));
          if |levels| >= 4 {
            assert levels[1..][1..][1..][1..] == levels[4..];
          }
        }
      }
    }
  }
}
