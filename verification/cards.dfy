/** `card` and `cards`: card codes normalised to an upper-case rank and a
    lower-case suit, and lists of them joined with single spaces. */
module CardText {
  import opened Text

  predicate IsLowerAscii(c: char) { 'a' <= c <= 'z' }
  predicate IsUpperAscii(c: char) { 'A' <= c <= 'Z' }

  /** A code of two or more characters keeps only its first two, the
      first upper-cased and the second lower-cased; shorter codes pass
      through unchanged. */
  function Card(c: string): (r: string)
    ensures |c| >= 2 ==> |r| == 2
    ensures |c| >= 2 ==> !IsLowerAscii(r[0]) && ToLower(r[0]) == ToLower(c[0])
    ensures |c| >= 2 ==> !IsUpperAscii(r[1]) && ToUpper(r[1]) == ToUpper(c[1])
    ensures |c| < 2 ==> r == c
  {
    if |c| >= 2 then [ToUpper(c[0]), ToLower(c[1])] else c
  }

  /** Normalising a normalised card changes nothing. */
  lemma CardIdempotent(c: string)
    ensures Card(Card(c)) == Card(c)
  {
    if |c| >= 2 {
      var r := Card(c);
      assert ToUpper(r[0]) == r[0];
      assert ToLower(r[1]) == r[1];
    }
  }

  /** Normalisation never introduces or removes a space. */
  lemma CardNoSpace(c: string)
    requires ' ' !in c
    ensures ' ' !in Card(c)
  {
    if |c| >= 2 {
      assert c[0] != ' ' && c[1] != ' ';
    }
  }

  function MapCard(board: seq<string>): (r: seq<string>)
    ensures |r| == |board|
    ensures forall i :: 0 <= i < |board| ==> r[i] == Card(board[i])
  {
    seq(|board|, i requires 0 <= i < |board| => Card(board[i]))
  }

  /** The normalised cards separated by single spaces. */
  function Cards(board: seq<string>): string
  {
    Join(MapCard(board), " ")
  }

  /** Splitting the rendering of a non-empty board on spaces gives back the
      normalised cards one by one, in order. */
  lemma SplitCards(board: seq<string>)
    requires |board| >= 1
    requires forall i :: 0 <= i < |board| ==> ' ' !in board[i]
    ensures SplitOn(Cards(board), " ") == MapCard(board)
  {
    var m := MapCard(board);
    forall i | 0 <= i < |m|
      ensures ' ' !in m[i]
    {
      CardNoSpace(board[i]);
    }
    SplitOnJoin(m, ' ');
  }

  lemma CardExamples()
    ensures Card("Ah") == "Ah"
    ensures Card("td") == "Td"
    ensures Card("2c") == "2c"
    ensures Cards(["Ah", "Kd", "Qc"]) == "Ah Kd Qc"
  {
    assert MapCard(["Ah", "Kd", "Qc"]) == ["Ah", "Kd", "Qc"];
  }
}
