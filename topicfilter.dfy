// Topic-filter matching as section 4.7 of MQTT 3.1.1 defines it: a topic and
// a filter are split into levels at '/', '+' stands for exactly one level,
// a final '#' for the parent level and any number of child levels, and a
// wildcard in the first filter level never matches a topic whose name starts
// with '$' (section 4.7.2).

module TopicFilter {
  import opened Text

  function Levels(s: string): (r: seq<string>)
    ensures |r| >= 1
  {
    Split(s, '/')
  }

  predicate Literal(level: string) {
    level != "+" && level != "#"
  }

  /**
   * Whether the filter levels from `j` on match the topic levels from `i` on.
   * `normal` is false for a topic whose name starts with '$'.
   */
  predicate MatchFrom(f: seq<string>, t: seq<string>, i: nat, j: nat, normal: bool)
    requires i <= |t| && j <= |f|
    decreases |t| - i
  {
    var descend := if i == |t| then j == |f| else (j < |f| && (
                     (f[j] == t[i] && MatchFrom(f, t, i + 1, j + 1, normal)) ||
                     (f[j] == "+" && (normal || i > 0) && MatchFrom(f, t, i + 1, j + 1, normal))));
    descend || (j + 1 == |f| && f[j] == "#" && (normal || i > 0))
  }

  /** Whether the filter `sub` matches the topic name `topic`. */
  predicate TopicMatchesSub(sub: string, topic: string) {
    MatchFrom(Levels(sub), Levels(topic), 0, 0, !StartsWith(topic, "$"))
  }

  /** A filter without wildcards matches exactly the topic with the same levels. */
  lemma {:induction false} LiteralMatch(f: seq<string>, t: seq<string>, i: nat, j: nat, normal: bool)
    requires i <= |t| && j <= |f|
    requires forall k :: j <= k < |f| ==> Literal(f[k])
    ensures MatchFrom(f, t, i, j, normal) <==> f[j..] == t[i..]
    decreases |t| - i
  {
    if i == |t| {
      assert t[i..] == [];
      assert f[j..] == [] <==> j == |f|;
    } else {
      if j < |f| {
        LiteralMatch(f, t, i + 1, j + 1, normal);
        assert f[j..] == [f[j]] + f[j + 1..];
        assert t[i..] == [t[i]] + t[i + 1..];
      } else {
        assert f[j..] == [];
      }
    }
  }

  /** A filter `p/#` with literal `p` matches exactly the topics whose levels start with `p`. */
  lemma {:induction false} PrefixMatch(f: seq<string>, t: seq<string>, i: nat, j: nat, normal: bool)
    requires i <= |t| && j < |f| && f[|f| - 1] == "#"
    requires forall k :: j <= k < |f| - 1 ==> Literal(f[k])
    requires normal || i > 0 || j < |f| - 1
    ensures MatchFrom(f, t, i, j, normal) <==>
      (|f| - 1 - j <= |t| - i && f[j..|f| - 1] == t[i..i + (|f| - 1 - j)])
    decreases |t| - i
  {
    if j == |f| - 1 {
      assert f[j..|f| - 1] == [] && t[i..i] == [];
    } else if i == |t| {
    } else {
      PrefixMatch(f, t, i + 1, j + 1, normal);
      assert f[j..|f| - 1] == [f[j]] + f[j + 1..|f| - 1];
      if |f| - 1 - j <= |t| - i {
        assert t[i..i + (|f| - 1 - j)] == [t[i]] + t[i + 1..i + 1 + (|f| - 1 - (j + 1))];
      }
    }
  }

  /** `+` matches any single level, except a first level of a '$' topic. */
  lemma SingleLevelWildcard(t: string)
    requires !StartsWith(t, "$")
    requires '/' !in t
    ensures TopicMatchesSub("+", t)
  {
    SplitNoSeparator("+");
    SplitNoSeparator(t);
  }

  lemma {:induction false} SplitNoSeparator(s: string)
    requires '/' !in s
    ensures Split(s, '/') == [s]
  {
    if s != [] {
      SplitNoSeparator(s[1..]);
      assert [s[0]] + s[1..] == s;
    }
  }

  /** '#' alone matches every topic whose name does not start with '$', and none that does. */
  lemma MultiLevelWildcard(t: string)
    ensures TopicMatchesSub("#", t) <==> !StartsWith(t, "$")
  {
    SplitNoSeparator("#");
    if StartsWith(t, "$") {
      var lt := Levels(t);
      assert !MatchFrom(["#"], lt, 0, 0, false) by {
        if 0 < |lt| {
          assert lt[0] != "#" by { DollarFirstLevel(t); }
        }
      }
    }
  }

  lemma DollarFirstLevel(t: string)
    requires StartsWith(t, "$")
    ensures Levels(t)[0] != "+" && Levels(t)[0] != "#"
  {
    assert t[0] == '$';
    var rest := Split(t[1..], '/');
    var first := [t[0]] + rest[0];
    assert Levels(t)[0] == first;
    assert first[0] == '$';
  }
}
