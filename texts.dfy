/**
 * The text of the accepted scenario and the characters it is made of, kept
 * apart from the recogniser so that reading them off the literal stays cheap.
 */
module Texts {
  /** A declaration, an assignment and an output statement. */
  const Accepted: string := "program x: int; begin x := 3; output x; end;"

  lemma AcceptedFlat()
    ensures |Accepted| == 44 && '\n' !in Accepted
  {
  }

  /** The characters of `program x: int; `. */
  lemma AcceptedDeclChars()
    ensures forall i | 0 <= i < 16 :: Accepted[i] == "program x: int; "[i]
  {
    assert Accepted[0..16] == "program x: int; ";
  }

  /** The characters of `begin x := 3; `. */
  lemma AcceptedAssignChars()
    ensures forall i | 16 <= i < 30 :: Accepted[i] == "begin x := 3; "[i - 16]
  {
    var rest := Accepted[16..];
    assert rest[..14] == "begin x := 3; ";
  }

  /** The characters of `output x; end;`. */
  lemma AcceptedOutputChars()
    ensures forall i | 30 <= i < 44 :: Accepted[i] == "output x; end;"[i - 30]
  {
    assert Accepted[30..] == "output x; end;";
  }

  lemma AcceptedSlice0()
    ensures Accepted[0..7] == "program"
  {
    assert Accepted[0] == 'p' && Accepted[1] == 'r' && Accepted[2] == 'o' && Accepted[3] == 'g' && Accepted[4] == 'r' && Accepted[5] == 'a' && Accepted[6] == 'm';
  }

  lemma AcceptedSlice11()
    ensures Accepted[11..14] == "int"
  {
    assert Accepted[11] == 'i' && Accepted[12] == 'n' && Accepted[13] == 't';
  }

  lemma AcceptedSlice16()
    ensures Accepted[16..21] == "begin"
  {
    assert Accepted[16] == 'b' && Accepted[17] == 'e' && Accepted[18] == 'g' && Accepted[19] == 'i' && Accepted[20] == 'n';
  }

  lemma AcceptedSlice24()
    ensures Accepted[24..26] == ":="
  {
    assert Accepted[24] == ':' && Accepted[25] == '=';
  }

  lemma AcceptedSlice30()
    ensures Accepted[30..36] == "output"
  {
    assert Accepted[30] == 'o' && Accepted[31] == 'u' && Accepted[32] == 't' && Accepted[33] == 'p' && Accepted[34] == 'u' && Accepted[35] == 't';
  }

  lemma AcceptedSlice40()
    ensures Accepted[40..43] == "end"
  {
    assert Accepted[40] == 'e' && Accepted[41] == 'n' && Accepted[42] == 'd';
  }
}
