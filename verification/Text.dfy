/** The few functions of Go's strings package that the services rely on. */
module Text {
  /** unicode.IsSpace */
  predicate IsSpace(c: char) {
    || c in {'\t', '\n', '\U{0B}', '\U{0C}', '\r', ' ', '\U{85}', '\U{A0}', '\U{1680}', '\U{2028}', '\U{2029}', '\U{202F}', '\U{205F}', '\U{3000}'}
    || '\U{2000}' <= c <= '\U{200A}'
  }

  function TrimLeft(s: string): string {
    if s != "" && IsSpace(s[0]) then TrimLeft(s[1..]) else s
  }

  function TrimRight(s: string): string {
    if s != "" && IsSpace(s[|s| - 1]) then TrimRight(s[..|s| - 1]) else s
  }

  /** strings.TrimSpace */
  function TrimSpace(s: string): string {
    TrimRight(TrimLeft(s))
  }

  predicate Blank(s: string) {
    TrimSpace(s) == ""
  }

  /** unicode.ToLower, as far as its result can be an ASCII letter. */
  function LowerChar(c: char): char {
    if 'A' <= c <= 'Z' then c + 32 as char
    else if c == '\U{212A}' then 'k'
    else if c == '\U{130}' then 'i'
    else c
  }

  /** strings.ToLower, likewise */
  function LowerCase(s: string): string {
    seq(|s|, i requires 0 <= i < |s| => LowerChar(s[i]))
  }

  /** Lower case and trimming do not get into each other's way. */
  lemma {:induction false} TrimLeftLower(s: string)
    ensures TrimLeft(LowerCase(s)) == LowerCase(TrimLeft(s))
  {
    if s != "" && IsSpace(s[0]) {
      TrimLeftLower(s[1..]);
      assert LowerCase(s)[1..] == LowerCase(s[1..]);
    }
  }

  lemma {:induction false} TrimRightLower(s: string)
    ensures TrimRight(LowerCase(s)) == LowerCase(TrimRight(s))
  {
    if s != "" && IsSpace(s[|s| - 1]) {
      TrimRightLower(s[..|s| - 1]);
      assert LowerCase(s)[..|s| - 1] == LowerCase(s[..|s| - 1]);
    }
  }

  lemma TrimLower(s: string)
    ensures TrimSpace(LowerCase(s)) == LowerCase(TrimSpace(s))
  {
    TrimLeftLower(s);
    TrimRightLower(TrimLeft(s));
  }

  lemma {:induction false} TrimmedLeft(s: string)
    ensures TrimLeft(s) == "" || !IsSpace(TrimLeft(s)[0])
  {
    if s != "" && IsSpace(s[0]) {
      TrimmedLeft(s[1..]);
    }
  }

  lemma {:induction false} TrimmedRight(s: string)
    ensures TrimRight(s) <= s && (TrimRight(s) == "" || !IsSpace(TrimRight(s)[|TrimRight(s)| - 1]))
  {
    if s != "" && IsSpace(s[|s| - 1]) {
      TrimmedRight(s[..|s| - 1]);
    }
  }

  predicate AllSpace(s: string) {
    forall i | 0 <= i < |s| :: IsSpace(s[i])
  }

  lemma {:induction false} CutLeft(s: string) returns (cut: string)
    ensures s == cut + TrimLeft(s) && AllSpace(cut)
  {
    cut := "";
    if s != "" && IsSpace(s[0]) {
      cut := CutLeft(s[1..]);
      cut := [s[0]] + cut;
    }
  }

  lemma {:induction false} CutRight(s: string) returns (cut: string)
    ensures s == TrimRight(s) + cut && AllSpace(cut)
  {
    cut := "";
    if s != "" && IsSpace(s[|s| - 1]) {
      var rest := s[..|s| - 1];
      cut := CutRight(rest);
      assert s == TrimRight(rest) + (cut + [s[|s| - 1]]);
      cut := cut + [s[|s| - 1]];
    }
  }

  /** Trimming cuts off space at both ends, and leaves none there. */
  lemma TrimCutsSpace(s: string) returns (front: string, back: string)
    ensures s == front + TrimSpace(s) + back && AllSpace(front) && AllSpace(back)
    ensures TrimSpace(s) != "" ==> !IsSpace(TrimSpace(s)[0]) && !IsSpace(TrimSpace(s)[|TrimSpace(s)| - 1])
  {
    front := CutLeft(s);
    back := CutRight(TrimLeft(s));
    assert s == front + (TrimSpace(s) + back);
    TrimmedLeft(s);
    TrimmedRight(TrimLeft(s));
  }

  lemma LowerCaseLetters(i: nat)
    requires i < 26
    ensures LowerCase(["ABCDEFGHIJKLMNOPQRSTUVWXYZ"[i]]) == ["abcdefghijklmnopqrstuvwxyz"[i]]
    ensures LowerCase(["abcdefghijklmnopqrstuvwxyz"[i]]) == ["abcdefghijklmnopqrstuvwxyz"[i]]
  {
  }

  lemma LowerCaseApart(s: string, t: string)
    ensures LowerCase(s + t) == LowerCase(s) + LowerCase(t)
  {
  }

  /** Trimming twice changes nothing. */
  lemma TrimTwice(s: string)
    ensures TrimSpace(TrimSpace(s)) == TrimSpace(s)
  {
    TrimmedLeft(s);
    TrimmedRight(TrimLeft(s));
  }

  /** strings.TrimPrefix */
  function TrimPrefix(s: string, prefix: string): string {
    if prefix <= s then s[|prefix|..] else s
  }

  /** What follows the last '/', or everything: LastIndex and a slice. */
  function AfterLastSlash(s: string): string {
    if s == "" || s[|s| - 1] == '/' then "" else AfterLastSlash(s[..|s| - 1]) + [s[|s| - 1]]
  }

  lemma {:induction false} NoSlashInTail(s: string)
    ensures '/' !in AfterLastSlash(s)
    ensures '/' !in s ==> AfterLastSlash(s) == s
  {
    if s != "" {
      NoSlashInTail(s[..|s| - 1]);
      assert s == s[..|s| - 1] + [s[|s| - 1]];
    }
  }

  /** Appending a piece without '/' lengthens the tail by that piece. */
  lemma {:induction false} TailAppend(s: string, t: string)
    requires '/' !in t
    ensures AfterLastSlash(s + t) == AfterLastSlash(s) + t
  {
    if t == "" {
      assert s + t == s;
    } else {
      var front := t[..|t| - 1];
      TailAppend(s, front);
      assert (s + t)[..|s + t| - 1] == s + front;
      assert t == front + [t[|t| - 1]];
    }
  }

  predicate EndsInSlash(s: string) {
    s != "" && s[|s| - 1] == '/'
  }

  /** A prefix of `front + s`, where `front` has no '/' and is not empty, has no '/' if it is also the start of s:
      the first '/' would have to be at two places. */
  lemma {:induction false} ShiftedPrefix(front: string, s: string, rest: string, k: nat)
    requires front != "" && '/' !in front && s <= front + s + rest && k <= |s|
    ensures '/' !in s[..k]
  {
    if k > 0 {
      ShiftedPrefix(front, s, rest, k - 1);
      assert s[k - 1] == (front + s + rest)[k - 1];
      assert s[..k] == s[..k - 1] + [s[k - 1]];
      if k - 1 >= |front| {
        assert s[k - 1] == s[k - 1 - |front|] == s[..k - 1][k - 1 - |front|];
      }
    }
  }
}
