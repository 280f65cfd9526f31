/**
 * `escapeMarkdownV2`: Telegram's MarkdownV2 escaping as the notifier does it.
 * Each of the 18 characters the MarkdownV2 style of the Telegram Bot API
 * reserves gets one backslash in front of it; every other character,
 * including the backslash itself, is copied unchanged.
 */
module MarkdownV2 {

  /** The characters of the replace pattern `[_*[\]()~`>#+\-=|{}.!]`. */
  predicate IsReserved(c: char) {
    || c == '_' || c == '*' || c == '[' || c == ']' || c == '(' || c == ')'
    || c == '~' || c == '`' || c == '>' || c == '#' || c == '+' || c == '-'
    || c == '=' || c == '|' || c == '{' || c == '}' || c == '.' || c == '!'
  }

  /** Number of reserved characters in `s`. */
  function CountReserved(s: string): nat {
    if s == [] then 0 else (if IsReserved(s[0]) then 1 else 0) + CountReserved(s[1..])
  }

  /** The replacement text for one character. */
  function EscapeChar(c: char): string {
    if IsReserved(c) then ['\\', c] else [c]
  }

  /** `escapeMarkdownV2`: the global, character-wise replace. */
  function Escape(s: string): (r: string)
    ensures |r| == |s| + CountReserved(s)
  {
    if s == [] then [] else EscapeChar(s[0]) + Escape(s[1..])
  }

  /**
   * The inverse: drop each backslash that stands right before a reserved
   * character, reading from the left.
   */
  function Unescape(s: string): string {
    if |s| >= 2 && s[0] == '\\' && IsReserved(s[1]) then [s[1]] + Unescape(s[2..])
    else if s == [] then []
    else [s[0]] + Unescape(s[1..])
  }

  /** Escaping distributes over concatenation: it works one character at a time. */
  lemma {:induction false} EscapeAppend(a: string, b: string)
    ensures Escape(a + b) == Escape(a) + Escape(b)
  {
    if a == [] {
      assert a + b == b;
    } else {
      assert (a + b)[0] == a[0];
      assert (a + b)[1..] == a[1..] + b;
      EscapeAppend(a[1..], b);
    }
  }

  /** Text without reserved characters (a backslash included) is left as it is. */
  lemma {:induction false} EscapeNoReserved(s: string)
    requires forall k :: 0 <= k < |s| ==> !IsReserved(s[k])
    ensures Escape(s) == s
  {
    if s != [] {
      EscapeNoReserved(s[1..]);
    }
  }

  /** The first character of escaped text is never a reserved character. */
  lemma EscapeHead(s: string)
    requires s != []
    ensures !IsReserved(Escape(s)[0])
  {
  }

  /**
   * Every reserved character in escaped text stands right after a backslash,
   * so none of them is read as markup.
   */
  lemma {:induction false} EscapedReservedArePreceded(s: string)
    ensures forall k :: 0 <= k < |Escape(s)| && IsReserved(Escape(s)[k]) ==> k > 0 && Escape(s)[k - 1] == '\\'
  {
    if s != [] {
      EscapedReservedArePreceded(s[1..]);
      var head, tail := EscapeChar(s[0]), Escape(s[1..]);
      assert Escape(s) == head + tail;
      forall k | 0 <= k < |head + tail| && IsReserved((head + tail)[k])
        ensures k > 0 && (head + tail)[k - 1] == '\\'
      {
        if k >= |head| {
          assert (head + tail)[k] == tail[k - |head|];
          if k - |head| > 0 {
            assert (head + tail)[k - 1] == tail[k - 1 - |head|];
          }
        }
      }
    }
  }

  /** Round trip: unescaping the escaped text gives back the original. */
  lemma {:induction false} UnescapeEscape(s: string)
    ensures Unescape(Escape(s)) == s
  {
    if s != [] {
      var tail := Escape(s[1..]);
      UnescapeEscape(s[1..]);
      if IsReserved(s[0]) {
        assert Escape(s) == ['\\', s[0]] + tail;
        assert (['\\', s[0]] + tail)[2..] == tail;
      } else {
        assert Escape(s) == [s[0]] + tail;
        assert ([s[0]] + tail)[1..] == tail;
        if s[0] == '\\' && tail != [] {
          EscapeHead(s[1..]);
        }
      }
    }
  }

  /** Plain words followed by a period: only the period is escaped. */
  lemma EscapeTrailingPeriod(words: string)
    requires forall k :: 0 <= k < |words| ==> !IsReserved(words[k])
    ensures Escape(words + ".") == words + "\\."
  {
    EscapeNoReserved(words);
    EscapeAppend(words, ".");
    EscapeOneReserved('.');
  }

  /** A single reserved character becomes backslash and character. */
  lemma EscapeOneReserved(c: char)
    requires IsReserved(c)
    ensures Escape([c]) == ['\\', c]
  {
    assert [c][1..] == [];
  }

  /** The message the notifier sends for a reason ending in a period. */
  lemma EscapeDeadlineExample()
    ensures Escape("deadline today.") == "deadline today\\."
  {
    var words := "deadline today";
    assert forall k :: 0 <= k < |words| ==> !IsReserved(words[k]);
    EscapeTrailingPeriod(words);
    assert words + "." == "deadline today.";
    assert words + "\\." == "deadline today\\.";
  }
}
