/** The `count_character_occurrences` tool and the `str.count` it calls with
    a one-character needle. */
module CharCount {
  import opened Tools

  const SingleCharacterMessage: string := "Please provide a single character to count."

  /** Python's `s.count(c)` for a one-character needle. */
  function Occurrences(s: string, c: char): (n: nat)
    ensures n <= |s|
  {
    if s == [] then 0
    else (if s[0] == c then 1 else 0) + Occurrences(s[1..], c)
  }

  /** The indices of `s` that hold `c`, compared case-sensitively. */
  function Positions(s: string, c: char): (p: set<int>)
  {
    set i | 0 <= i < |s| && s[i] == c
  }

  /** Counting distributes over concatenation. */
  lemma {:induction false} OccurrencesOfConcat(a: string, b: string, c: char)
    ensures Occurrences(a + b, c) == Occurrences(a, c) + Occurrences(b, c)
  {
    if a != [] {
      assert (a + b)[1..] == a[1..] + b;
      OccurrencesOfConcat(a[1..], b, c);
    } else {
      assert a + b == b;
    }
  }

  /** The count is the number of indices that hold the needle. */
  lemma {:induction false} OccurrencesArePositions(s: string, c: char)
    ensures Occurrences(s, c) == |Positions(s, c)|
  {
    if s != [] {
      var n := |s| - 1;
      var front := s[..n];
      OccurrencesArePositions(front, c);
      assert s == front + [s[n]];
      OccurrencesOfConcat(front, [s[n]], c);
      if s[n] == c {
        assert Positions(s, c) == Positions(front, c) + {n};
        assert n !in Positions(front, c);
      } else {
        assert Positions(s, c) == Positions(front, c);
      }
    }
  }

  /** A character occurs nowhere exactly when its count is zero, and
      everywhere exactly when its count is the length of the string. */
  lemma {:induction false} OccurrencesExtremes(s: string, c: char)
    ensures Occurrences(s, c) == 0 <==> c !in s
    ensures Occurrences(s, c) == |s| <==> forall i | 0 <= i < |s| :: s[i] == c
  {
    if s != [] {
      var n := |s| - 1;
      var front := s[..n];
      OccurrencesExtremes(front, c);
      assert s == front + [s[n]];
      OccurrencesOfConcat(front, [s[n]], c);
      assert (forall i | 0 <= i < |s| :: s[i] == c) <==>
        (forall i | 0 <= i < n :: front[i] == c) && s[n] == c;
    }
  }

  /** `count_character_occurrences(input_string, character)`: a needle that is
      not exactly one character long (empty or longer) gives a fixed error
      text; otherwise the answer is the number of indices of the input that
      hold that character. */
  function CountCharacterOccurrences(input: string, character: string): (r: Reply<nat>)
    ensures WellFormed(r)
    ensures |character| != 1 ==> r == ErrorText(ErrorPrefix + SingleCharacterMessage)
    ensures |character| == 1 ==> r == Answer(|Positions(input, character[0])|)
    ensures r.Answer? ==> r.value <= |input|
  {
    if |character| != 1 then
      ErrorReply(SingleCharacterMessage)
    else
      OccurrencesArePositions(input, character[0]);
      Answer(Occurrences(input, character[0]))
  }

  /** Counting is case-sensitive: in "an AI" the tool finds one "a", and the
      "A" is counted only when the needle is "A". */
  lemma CaseSensitiveExample()
    ensures CountCharacterOccurrences("an AI", "a") == Answer(1)
    ensures CountCharacterOccurrences("an AI", "A") == Answer(1)
  {
    assert Occurrences("an AI", 'a') == 1;
    assert Occurrences("an AI", 'A') == 1;
    assert "a"[0] == 'a' && "A"[0] == 'A';
  }

  /** The empty needle and a two-character needle are both refused. */
  lemma NeedleLengthExamples(input: string)
    ensures CountCharacterOccurrences(input, "").ErrorText?
    ensures CountCharacterOccurrences(input, "ab") == CountCharacterOccurrences(input, "")
  {
  }
}

/** The demo's own question: how many "a"s are in the sentence it asks the
    agents about. The sentence is counted piece by piece. */
module CharCountDemo {
  import opened Tools
  import opened CharCount

  const CountSentence: string := "Strands is an amazing AI framework"

  lemma StrandsPiece()
    ensures Occurrences("Strands ", 'a') == 1
  {
  }

  lemma IsAnPiece()
    ensures Occurrences("is an ", 'a') == 1
  {
  }

  lemma AmazingPiece()
    ensures Occurrences("amazing ", 'a') == 2
  {
  }

  lemma AiPiece()
    ensures Occurrences("AI ", 'a') == 0
  {
  }

  lemma FrameworkPiece()
    ensures Occurrences("framework", 'a') == 1
  {
  }

  /** The count over five pieces put together is the sum of their counts. */
  lemma OccurrencesOfFive(w1: string, w2: string, w3: string, w4: string, w5: string, c: char)
    ensures Occurrences(w1 + w2 + w3 + w4 + w5, c) ==
      Occurrences(w1, c) + Occurrences(w2, c) + Occurrences(w3, c) + Occurrences(w4, c) + Occurrences(w5, c)
  {
    OccurrencesOfConcat(w1 + w2 + w3 + w4, w5, c);
    OccurrencesOfConcat(w1 + w2 + w3, w4, c);
    OccurrencesOfConcat(w1 + w2, w3, c);
    OccurrencesOfConcat(w1, w2, c);
  }

  /** The sentence is the five pieces put together. */
  lemma SentencePieces()
    ensures "Strands " + "is an " + "amazing " + "AI " + "framework" == CountSentence
  {
  }

  /** "a" occurs five times in the demo sentence. */
  lemma SentenceOccurrences()
    ensures Occurrences(CountSentence, 'a') == 5
  {
    StrandsPiece();
    IsAnPiece();
    AmazingPiece();
    AiPiece();
    FrameworkPiece();
    OccurrencesOfFive("Strands ", "is an ", "amazing ", "AI ", "framework", 'a');
    SentencePieces();
  }

  /** The tool answers 5 for "a" in the demo sentence; the "A" of "AI" is a
      different character and is not counted. */
  lemma DemoSentenceCount()
    ensures CountCharacterOccurrences(CountSentence, "a") == Answer(5)
  {
    SentenceOccurrences();
    assert "a"[0] == 'a';
  }
}
