/** The pieces of Go's `strings` and `unicode` packages the validator relies on. */
module Text {

  /**
   * `unicode.IsSpace`: the six ASCII spaces, U+0085 and U+00A0 in Latin-1,
   * and the code points of Unicode's White_Space property above it.
   */
  predicate IsSpace(c: char) {
    var r := c as int;
    r == 0x09 || r == 0x0A || r == 0x0B || r == 0x0C || r == 0x0D || r == 0x20
    || r == 0x85 || r == 0xA0 || r == 0x1680 || (0x2000 <= r <= 0x200A)
    || r == 0x2028 || r == 0x2029 || r == 0x202F || r == 0x205F || r == 0x3000
  }

  /** Every character of `s` is white space (in particular, the empty string). */
  predicate IsBlank(s: string) {
    forall i :: 0 <= i < |s| ==> IsSpace(s[i])
  }

  function TrimLeft(s: string): string
  {
    if |s| > 0 && IsSpace(s[0]) then TrimLeft(s[1..]) else s
  }

  function TrimRight(s: string): string
  {
    if |s| > 0 && IsSpace(s[|s| - 1]) then TrimRight(s[..|s| - 1]) else s
  }

  /** `strings.TrimSpace`: drop leading and trailing white space. */
  function TrimSpace(s: string): string
  {
    TrimRight(TrimLeft(s))
  }

  lemma {:induction false} TrimLeftEmpty(s: string)
    ensures TrimLeft(s) == [] <==> IsBlank(s)
    ensures TrimLeft(s) != [] ==> !IsSpace(TrimLeft(s)[0])
  {
    if |s| > 0 && IsSpace(s[0]) {
      TrimLeftEmpty(s[1..]);
      assert IsBlank(s[1..]) ==> IsBlank(s) by {
        if IsBlank(s[1..]) {
          forall i | 0 <= i < |s| ensures IsSpace(s[i]) {
            if i > 0 { assert s[i] == s[1..][i - 1]; }
          }
        }
      }
      assert IsBlank(s) ==> IsBlank(s[1..]) by {
        if IsBlank(s) {
          forall i | 0 <= i < |s[1..]| ensures IsSpace(s[1..][i]) {
            assert s[1..][i] == s[i + 1];
          }
        }
      }
    } else if |s| > 0 {
      assert !IsSpace(s[0]);
    }
  }

  lemma {:induction false} TrimRightKeepsHead(s: string)
    requires |s| > 0 && !IsSpace(s[0])
    ensures TrimRight(s) != []
  {
    if IsSpace(s[|s| - 1]) {
      TrimRightKeepsHead(s[..|s| - 1]);
    }
  }

  /** The validator's test `strings.TrimSpace(s) == ""` holds exactly of blank strings. */
  lemma TrimSpaceEmptyIff(s: string)
    ensures TrimSpace(s) == [] <==> IsBlank(s)
  {
    TrimLeftEmpty(s);
    if TrimLeft(s) != [] {
      TrimRightKeepsHead(TrimLeft(s));
    }
  }

  /** `strings.Join(parts, sep)`. */
  function Join(parts: seq<string>, sep: string): string
  {
    if |parts| == 0 then ""
    else if |parts| == 1 then parts[0]
    else Join(parts[..|parts| - 1], sep) + sep + parts[|parts| - 1]
  }

  /** `part` appears in `text` starting at position `i`. */
  predicate OccursAt(text: string, part: string, i: int) {
    0 <= i && i + |part| <= |text| && text[i..i + |part|] == part
  }

  /** `strings.Contains(text, part)`. */
  predicate Contains(text: string, part: string) {
    exists i :: 0 <= i <= |text| && OccursAt(text, part, i)
  }

  /** Every part can be found in the joined text. */
  lemma {:induction false} JoinContains(parts: seq<string>, sep: string, k: nat)
    requires k < |parts|
    ensures Contains(Join(parts, sep), parts[k])
  {
    if |parts| == 1 {
      assert OccursAt(Join(parts, sep), parts[k], 0);
    } else {
      var init := Join(parts[..|parts| - 1], sep);
      var text := Join(parts, sep);
      if k == |parts| - 1 {
        assert OccursAt(text, parts[k], |init + sep|);
      } else {
        JoinContains(parts[..|parts| - 1], sep, k);
        assert parts[..|parts| - 1][k] == parts[k];
        var i :| 0 <= i <= |init| && OccursAt(init, parts[k], i);
        assert text == init + (sep + parts[|parts| - 1]);
        assert text[i..i + |parts[k]|] == init[i..i + |parts[k]|];
        assert OccursAt(text, parts[k], i);
      }
    }
  }

  /** Text found in `text` is still found once something is put in front of it. */
  lemma ContainsAfter(front: string, text: string, part: string)
    requires Contains(text, part)
    ensures Contains(front + text, part)
  {
    var i :| 0 <= i <= |text| && OccursAt(text, part, i);
    var full := front + text;
    assert full[|front| + i..|front| + i + |part|] == text[i..i + |part|];
    assert OccursAt(full, part, |front| + i);
  }
}
