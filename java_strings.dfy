/**
 * The two pieces of `java.lang.String` the MBTiles code relies on:
 * `lastIndexOf(char)` and `split` on a one-character separator.
 */
module JavaStrings {

  /** `s.lastIndexOf(c)`: the position of the last `c` in `s`, or -1 when there is none. */
  function LastIndexOf(s: string, c: char): (r: int)
    ensures -1 <= r < |s|
    ensures 0 <= r ==> s[r] == c
    ensures forall i :: r < i < |s| ==> s[i] != c
  {
    if |s| == 0 then -1
    else if s[|s| - 1] == c then |s| - 1
    else LastIndexOf(s[..|s| - 1], c)
  }

  predicate EndsWith(s: string, suffix: string) {
    |suffix| <= |s| && s[|s| - |suffix|..] == suffix
  }

  /** Glues fields back together with `sep` between consecutive ones. */
  function Join(fields: seq<string>, sep: char): string
    requires |fields| >= 1
    decreases |fields|
  {
    if |fields| == 1 then fields[0] else fields[0] + [sep] + Join(fields[1..], sep)
  }

  /**
   * Every field between occurrences of `sep`, empty ones included: one more field
   * than `s` has separators.
   */
  function Fields(s: string, sep: char): (fields: seq<string>)
    ensures |fields| >= 1
    ensures forall k :: 0 <= k < |fields| ==> sep !in fields[k]
    decreases |s|
  {
    if |s| == 0 then [""]
    else
      var rest := Fields(s[1..], sep);
      if s[0] == sep then [""] + rest
      else [[s[0]] + rest[0]] + rest[1..]
  }

  /** Drops the empty fields at the end of `fields`, as `split` with limit 0 does. */
  function StripTrailingEmpty(fields: seq<string>): (r: seq<string>)
    ensures |r| <= |fields| && r == fields[..|r|]
    ensures |r| > 0 ==> r[|r| - 1] != ""
    ensures forall k :: |r| <= k < |fields| ==> fields[k] == ""
  {
    if |fields| > 0 && fields[|fields| - 1] == "" then StripTrailingEmpty(fields[..|fields| - 1])
    else fields
  }

  /**
   * `s.split(sep)`: a string without the separator comes back whole as the only field
   * (so "" gives [""]); otherwise the fields, with trailing empty ones removed.
   */
  function Split(s: string, sep: char): (fields: seq<string>)
    ensures sep !in s ==> fields == [s]
    ensures forall k :: 0 <= k < |fields| ==> sep !in fields[k]
    ensures sep in s && |fields| > 0 ==> fields[|fields| - 1] != ""
  {
    if sep !in s then [s] else StripTrailingEmpty(Fields(s, sep))
  }

  /** Joining the fields of a string gives the string back. */
  lemma {:induction false} JoinFields(s: string, sep: char)
    ensures Join(Fields(s, sep), sep) == s
    decreases |s|
  {
    if |s| > 0 {
      var rest := Fields(s[1..], sep);
      JoinFields(s[1..], sep);
      if s[0] == sep {
        assert Fields(s, sep) == [""] + rest;
        assert ([""] + rest)[1..] == rest;
        assert s == [sep] + s[1..];
      } else if |rest| == 1 {
        assert s == [s[0]] + s[1..];
      } else {
        var fs := Fields(s, sep);
        assert fs[1..] == rest[1..];
        assert Join(rest, sep) == rest[0] + [sep] + Join(rest[1..], sep);
        assert s == [s[0]] + s[1..];
      }
    }
  }

  /** A string without the separator is a single field. */
  lemma {:induction false} FieldsWithoutSeparator(f: string, sep: char)
    requires sep !in f
    ensures Fields(f, sep) == [f]
    decreases |f|
  {
    if |f| > 0 {
      FieldsWithoutSeparator(f[1..], sep);
      assert f == [f[0]] + f[1..];
    }
  }

  /** A separator-free field followed by the separator splits off as the first field. */
  lemma {:induction false} FieldsOfCons(f: string, sep: char, tail: string)
    requires sep !in f
    ensures Fields(f + [sep] + tail, sep) == [f] + Fields(tail, sep)
    decreases |f|
  {
    var s := f + [sep] + tail;
    if |f| == 0 {
      assert s == [sep] + tail;
      assert s[1..] == tail;
    } else {
      assert s[1..] == f[1..] + [sep] + tail;
      FieldsOfCons(f[1..], sep, tail);
      assert f == [f[0]] + f[1..];
    }
  }

  /** Splitting the join of separator-free fields gives those fields back. */
  lemma {:induction false} FieldsOfJoin(fields: seq<string>, sep: char)
    requires |fields| >= 1
    requires forall k :: 0 <= k < |fields| ==> sep !in fields[k]
    ensures Fields(Join(fields, sep), sep) == fields
    decreases |fields|
  {
    if |fields| == 1 {
      FieldsWithoutSeparator(fields[0], sep);
    } else {
      FieldsOfJoin(fields[1..], sep);
      FieldsOfCons(fields[0], sep, Join(fields[1..], sep));
      assert fields == [fields[0]] + fields[1..];
    }
  }

  /**
   * `split` returns exactly the separator-free fields it was given joined, when there are
   * at least two of them and the last is not empty.
   */
  lemma SplitOfJoin(fields: seq<string>, sep: char)
    requires |fields| >= 2
    requires forall k :: 0 <= k < |fields| ==> sep !in fields[k]
    requires fields[|fields| - 1] != ""
    ensures Split(Join(fields, sep), sep) == fields
  {
    var s := Join(fields, sep);
    assert s[|fields[0]|] == sep;
    FieldsOfJoin(fields, sep);
  }

  /** Stripping k empty fields appended to fields whose last one is not empty gives the fields back. */
  lemma {:induction false} StripAppendedEmpty(fields: seq<string>, k: nat)
    requires |fields| >= 1 && fields[|fields| - 1] != ""
    ensures StripTrailingEmpty(fields + seq(k, _ => "")) == fields
    decreases k
  {
    if k > 0 {
      var fewer := fields + seq(k - 1, _ => "");
      assert (fields + seq(k, _ => ""))[..|fewer|] == fewer;
      StripAppendedEmpty(fields, k - 1);
    } else {
      assert fields + seq(k, _ => "") == fields;
    }
  }

  /**
   * Separators at the end of a string are dropped by `split`: the join of two or more
   * separator-free fields, the last not empty, followed by k separators, splits into
   * those fields.
   */
  lemma SplitDropsTrailingSeparators(fields: seq<string>, k: nat, sep: char)
    requires |fields| >= 2
    requires forall i :: 0 <= i < |fields| ==> sep !in fields[i]
    requires fields[|fields| - 1] != ""
    ensures Split(Join(fields, sep) + seq(k, _ => sep), sep) == fields
  {
    var empties: seq<string> := seq(k, _ => "");
    var all := fields + empties;
    JoinTrailingEmpty(fields, k, sep);
    assert forall i :: 0 <= i < |all| ==> sep !in all[i] by {
      forall i | 0 <= i < |all| ensures sep !in all[i] {
        if i >= |fields| {
          assert all[i] == "";
        }
      }
    }
    FieldsOfJoin(all, sep);
    var s := Join(fields, sep);
    assert s[|fields[0]|] == sep;
    assert (s + seq(k, _ => sep))[|fields[0]|] == sep;
    StripAppendedEmpty(fields, k);
  }

  /** Joining fields followed by k empty ones appends k separators. */
  lemma {:induction false} JoinTrailingEmpty(fields: seq<string>, k: nat, sep: char)
    requires |fields| >= 1
    ensures Join(fields + seq(k, _ => ""), sep) == Join(fields, sep) + seq(k, _ => sep)
    decreases |fields|, k
  {
    if k > 0 {
      var empties := seq(k, _ => "");
      var fewer := seq(k - 1, _ => "");
      assert fields + empties == (fields + fewer) + [""];
      JoinAppend(fields + fewer, "", sep);
      JoinTrailingEmpty(fields, k - 1, sep);
      assert seq(k, _ => sep) == seq(k - 1, _ => sep) + [sep];
    } else {
      assert fields + seq(k, _ => "") == fields;
    }
  }

  /** Appending one field adds the separator and that field. */
  lemma {:induction false} JoinAppend(fields: seq<string>, last: string, sep: char)
    requires |fields| >= 1
    ensures Join(fields + [last], sep) == Join(fields, sep) + [sep] + last
    decreases |fields|
  {
    if |fields| > 1 {
      assert (fields + [last])[1..] == fields[1..] + [last];
      JoinAppend(fields[1..], last, sep);
    }
  }

  /**
   * Whatever `split` returns, the string it came from is those fields joined, followed
   * by the separators of the empty fields it dropped; when `split` returns no field at
   * all, the string is made of separators only.
   */
  lemma SplitShape(s: string, sep: char) returns (k: nat)
    ensures |Split(s, sep)| == 0 ==> s == seq(|s|, _ => sep)
    ensures |Split(s, sep)| >= 1 ==> s == Join(Split(s, sep), sep) + seq(k, _ => sep)
  {
    var r := Split(s, sep);
    k := 0;
    if sep in s {
      var all := Fields(s, sep);
      JoinFields(s, sep);
      if |r| == 0 {
        var m := |all| - 1;
        assert all == [""] + seq(m, _ => "");
        JoinTrailingEmpty([""], m, sep);
        assert s == seq(m, _ => sep);
      } else {
        k := |all| - |r|;
        assert all == r + seq(k, _ => "");
        JoinTrailingEmpty(r, k, sep);
      }
    }
  }

  /** A string of separators only splits into no field at all. */
  lemma SeparatorsOnlySplitToNothing()
    ensures Split(",,", ',') == []
  {
    assert Fields(",,", ',') == ["", "", ""] by {
      assert ",,"[1..] == ",";
      assert ","[1..] == "";
    }
  }
}
