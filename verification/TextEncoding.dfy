/** UTF-8 as RFC 3629, section 4, defines it, and what becomes of a text that is cut. */
module TextEncoding {
  import opened Json

  predicate Continuation(b: byte) { 0x80 <= b <= 0xBF }

  /** How many bytes a character that begins with this byte has; none begins with it when that is zero. */
  function CharLength(b: byte): nat {
    if b < 0x80 then 1
    else if 0xC2 <= b <= 0xDF then 2
    else if 0xE0 <= b <= 0xEF then 3
    else if 0xF0 <= b <= 0xF4 then 4
    else 0
  }

  /** One character: no overlong form, no surrogate, nothing above U+10FFFF. */
  predicate Char(s: seq<byte>)
    requires s != []
  {
    && |s| == CharLength(s[0])
    && (forall i | 1 <= i < |s| :: Continuation(s[i]))
    && (s[0] == 0xE0 ==> s[1] >= 0xA0)
    && (s[0] == 0xED ==> s[1] <= 0x9F)
    && (s[0] == 0xF0 ==> s[1] >= 0x90)
    && (s[0] == 0xF4 ==> s[1] <= 0x8F)
  }

  predicate Utf8(s: Text) {
    if s == [] then true
    else
      var n := CharLength(s[0]);
      0 < n <= |s| && Char(s[..n]) && Utf8(s[n..])
  }

  predicate Ascii(s: Text) { forall i | 0 <= i < |s| :: s[i] < 0x80 }

  /** Where a character may begin, a text may be divided: the whole is UTF-8 exactly when both parts are. */
  lemma {:induction false} DividedText(a: Text, b: Text)
    requires b == [] || !Continuation(b[0])
    ensures Utf8(a + b) <==> Utf8(a) && Utf8(b)
  {
    if a == [] {
      assert a + b == b;
    } else {
      var n := CharLength(a[0]);
      if 0 < n <= |a| {
        assert (a + b)[..n] == a[..n] && (a + b)[n..] == a[n..] + b;
        DividedText(a[n..], b);
      } else if n <= |a + b| && n > 0 {
        assert (a + b)[..n][|a|] == b[0];
      }
    }
  }

  /** A newline always divides. */
  lemma NewlineDivides(a: Text, b: Text)
    ensures Utf8(a + [10] + b) <==> Utf8(a) && Utf8(b)
  {
    assert a + [10] + b == a + ([10] + b);
    DividedText(a, [10] + b);
    assert ([10] + b)[..1] == [10] && ([10] + b)[1..] == b;
  }

  lemma {:induction false} AsciiIsUtf8(s: Text)
    requires Ascii(s)
    ensures Utf8(s)
  {
    if s != [] { AsciiIsUtf8(s[1..]); }
  }

  /** A text with a character of more than one byte can be cut so that what is left is no text. */
  lemma {:induction false} CutThroughCharacter(s: Text) returns (k: nat)
    requires Utf8(s) && !Ascii(s)
    ensures 0 < k < |s| && !Utf8(s[..k])
  {
    if s[0] >= 0x80 {
      k := 1;
    } else {
      var k' := CutThroughCharacter(s[1..]);
      k := k' + 1;
      assert s[..k][1..] == s[1..][..k'];
    }
  }

  /** Every beginning of a text is a text exactly when it is all ASCII. */
  lemma AsciiExactlyWhenCutsAreTexts(s: Text)
    requires Utf8(s)
    ensures Ascii(s) <==> forall k | 0 <= k <= |s| :: Utf8(s[..k])
  {
    if Ascii(s) {
      forall k | 0 <= k <= |s| ensures Utf8(s[..k]) { AsciiIsUtf8(s[..k]); }
    } else {
      var k := CutThroughCharacter(s);
    }
  }
}
