/** Option and Result shapes shared by every module, and the few string facts
    the model needs from the host language. */
module Common {
  datatype Option<+T> = None | Some(value: T)

  datatype Result<+T, +E> = Ok(value: T) | Err(error: E)
}

/** Text as the host language sees it: a string is a sequence of code points. */
module Text {
  /** The characters on which whitespace splitting and stripping act. */
  predicate IsSpace(c: char) {
    || '\t' <= c <= '\r'
    || '\U{1c}' <= c <= ' '
    || c == '\U{85}' || c == '\U{a0}' || c == '\U{1680}'
    || '\U{2000}' <= c <= '\U{200a}'
    || c == '\U{2028}' || c == '\U{2029}' || c == '\U{202f}' || c == '\U{205f}' || c == '\U{3000}'
  }

  predicate NoSpace(s: string) {
    forall i :: 0 <= i < |s| ==> !IsSpace(s[i])
  }

  predicate Blank(s: string) {
    forall i :: 0 <= i < |s| ==> IsSpace(s[i])
  }

  predicate StartsWith(s: string, prefix: string) {
    prefix <= s
  }

  predicate OccursAt(s: string, part: string, i: nat) {
    i <= |s| && part <= s[i..]
  }

  /** `part in s`, the substring test. */
  predicate Contains(s: string, part: string) {
    exists i: nat | i <= |s| :: OccursAt(s, part, i)
  }

  /** The text is something, then the part, then something. */
  ghost predicate Around(s: string, a: string, part: string, b: string) {
    s == a + part + b
  }

  lemma ContainsIsInfix(s: string, part: string)
    ensures Contains(s, part) <==> exists a, b :: Around(s, a, part, b)
  {
    if Contains(s, part) {
      var i: nat :| i <= |s| && OccursAt(s, part, i);
      Occurrence(s, part, i);
    }
    hide OccursAt, Around;
    forall a, b | Around(s, a, part, b) ensures Contains(s, part) {
      OccursAfter(s, a, part, b);
    }
  }

  lemma Occurrence(s: string, part: string, i: nat)
    requires OccursAt(s, part, i)
    ensures Around(s, s[..i], part, s[i..][|part|..])
  {
    assert s == s[..i] + s[i..];
    assert s[i..] == part + s[i..][|part|..];
  }

  lemma OccursAfter(s: string, a: string, part: string, b: string)
    requires Around(s, a, part, b)
    ensures |a| <= |s| && OccursAt(s, part, |a|)
  {
    assert s[|a|..] == part + b;
  }
}
