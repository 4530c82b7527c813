/** What the `/new` parser reads from any text, told by the pieces between bars. */
module NewParsing {
  import opened Wrappers
  import opened Text
  import opened NewCommand

  /** All pieces between bars. */
  function Pieces(s: string): (r: seq<string>)
    ensures |r| >= 1 && forall i :: 0 <= i < |r| ==> BarFree(r[i])
    decreases |s|
  {
    if BarFree(s) then [s] else [s[..Index(s)]] + Pieces(s[Index(s) + 1..])
  }

  /** What follows the first `k` bars, bars included. */
  function Rest(s: string, k: nat): string
    decreases k
  {
    if k == 0 then s else if BarFree(s) then "" else Rest(s[Index(s) + 1..], k - 1)
  }

  function Field(s: string, k: nat): Option<string> { Nth(Pieces(s), k) }

  /** A text after `k` bars, if there are that many and it is not blank. */
  function TextAfter(s: string, k: nat): Option<string> { if k < |Pieces(s)| then Present(Rest(s, k)) else None }

  lemma {:induction false} SplitIs(s: string, limit: nat)
    ensures |Split(s, limit)| == if |Pieces(s)| <= limit then |Pieces(s)| else limit + 1
    ensures forall i :: 0 <= i < limit && i < |Pieces(s)| ==> Split(s, limit)[i] == Pieces(s)[i]
    ensures limit < |Pieces(s)| ==> Split(s, limit)[limit] == Rest(s, limit)
    decreases limit
  {
    if limit > 0 && !BarFree(s) { SplitIs(s[Index(s) + 1..], limit - 1); }
  }

  lemma {:induction false} PiecesAfter(s: string, k: nat)
    requires k < |Pieces(s)|
    ensures Pieces(Rest(s, k)) == Pieces(s)[k..]
    decreases k
  {
    if k > 0 {
      PiecesAfter(s[Index(s) + 1..], k - 1);
      assert Pieces(s)[1..] == Pieces(s[Index(s) + 1..]);
    }
  }

  lemma {:induction false} RestAfter(s: string, k: nat, n: nat)
    requires k < |Pieces(s)|
    ensures Rest(Rest(s, k), n) == Rest(s, k + n)
    decreases k
  {
    if k > 0 { RestAfter(s[Index(s) + 1..], k - 1, n); }
  }

  /** Beyond the bars there is nothing. */
  lemma {:induction false} RestBeyond(s: string, k: nat)
    requires k >= |Pieces(s)|
    ensures Rest(s, k) == ""
    decreases k
  {
    if k > 0 && !BarFree(s) { RestBeyond(s[Index(s) + 1..], k - 1); }
  }

  lemma FieldsOfSplit(s: string, limit: nat)
    ensures forall i :: 0 <= i < limit ==> Nth(Split(s, limit), i) == Field(s, i)
    ensures Nth(Split(s, limit), limit) == TextAfter(s, limit)
  {
    SplitIs(s, limit);
    hide Split, Pieces, Rest, Present;
  }

  /** The fields of a tail are those of the whole, counted on. */
  lemma TailFields(s: string, k: nat, i: nat)
    requires k < |Pieces(s)|
    ensures Field(Rest(s, k), i) == Field(s, k + i) && TextAfter(Rest(s, k), i) == TextAfter(s, k + i)
  {
    PiecesAfter(s, k);
    RestAfter(s, k, i);
    assert k + i < |Pieces(s)| ==> Pieces(s)[k..][i] == Pieces(s)[k + i];
    hide Rest, Present;
  }

  /** The parser's whole meaning, for any text: model and effort are the first two
      pieces and must not be blank; the mode is the third, if anything follows them;
      `planmode` needs its two fields, and directory and prompt come after those,
      while `noplan` has them at once; a prompt is everything that is left. Under any
      other mode nothing more is read. */
  function Meaning(s: string): Option<Fields> {
    if Field(s, 0) == None || Field(s, 1) == None then None
    else
      var model, effort := Field(s, 0).value, Field(s, 1).value;
      if TextAfter(s, 2) == None then Some(Fields(model, effort, None, None, None, None, None))
      else
        var mode := Fold(Strip(Pieces(s)[2]));
        if mode == "planmode" then
          if Field(s, 3) == None || Field(s, 4) == None then None
          else Some(Fields(model, effort, Some(mode), Field(s, 3), Field(s, 4), Field(s, 5), TextAfter(s, 6)))
        else if mode == "noplan" then Some(Fields(model, effort, Some(mode), None, None, Field(s, 3), TextAfter(s, 4)))
        else Some(Fields(model, effort, Some(mode), None, None, None, None))
  }

  lemma TailIs(s: string, model: string, effort: string)
    requires |Pieces(s)| >= 3
    ensures
      var mode := Fold(Strip(Pieces(s)[2]));
      var tail := if |Split(Rest(s, 2), 1)| == 2 then Split(Rest(s, 2), 1)[1] else "";
      && Split(Rest(s, 2), 1)[0] == Pieces(s)[2]
      && ParseTail(model, effort, mode, tail) ==
         if mode == "planmode" then
           if Field(s, 3) == None || Field(s, 4) == None then None
           else Some(Fields(model, effort, Some(mode), Field(s, 3), Field(s, 4), Field(s, 5), TextAfter(s, 6)))
         else if mode == "noplan" then Some(Fields(model, effort, Some(mode), None, None, Field(s, 3), TextAfter(s, 4)))
         else Some(Fields(model, effort, Some(mode), None, None, None, None))
  {
    SplitIs(Rest(s, 2), 1);
    PiecesAfter(s, 2);
    RestAfter(s, 2, 1);
    assert Pieces(s)[2..][0] == Pieces(s)[2];
    hide Rest, Split, Present, Pieces;
    if |Pieces(s)| == 3 {
      EmptyTail(s);
    } else {
      assert Split(Rest(s, 2), 1)[1] == Rest(s, 3);
      FieldsOfSplit(Rest(s, 3), 3);
      FieldsOfSplit(Rest(s, 3), 1);
      TailFields(s, 3, 0);
      TailFields(s, 3, 1);
      TailFields(s, 3, 2);
      TailFields(s, 3, 3);
    }
    hide Nth, Field, TextAfter, Strip, Fold;
  }

  /** With nothing behind the mode there are no fields, from the text or from an
      empty tail. */
  lemma EmptyTail(s: string)
    requires |Pieces(s)| == 3
    ensures forall i :: i >= 3 ==> Field(s, i) == None && TextAfter(s, i) == None
    ensures forall n, i :: Nth(Split("", n), i) == None
  {
    BlankIsNothing();
    hide Pieces;
    forall n, i ensures Nth(Split("", n), i) == None { assert Split("", n) == [""]; }
  }

  lemma BlankIsNothing()
    ensures Strip("") == ""
  {
  }

  /** For every text the parser gives exactly that. */
  lemma ParseIsMeaning(s: string)
    ensures Parse(s) == Meaning(s)
  {
    var p, leading := Pieces(s), Split(s, 2);
    SplitIs(s, 2);
    assert |leading| == (if |p| <= 2 then |p| else 3) && leading[0] == p[0] && (|p| >= 2 ==> leading[1] == p[1]);
    hide Split, Rest, Pieces, ParseTail, Strip, Fold, TextAfter;
    if |p| >= 3 {
      assert TextAfter(s, 2) == Present(leading[2]) by { TextIs(s, 2); }
      TailIs(s, Strip(p[0]), Strip(p[1]));
    } else {
      NoText(s, 2);
    }
  }

  lemma TextIs(s: string, k: nat)
    requires k < |Pieces(s)|
    ensures TextAfter(s, k) == Present(Rest(s, k))
  {
    hide Pieces, Rest, Present;
  }

  lemma NoText(s: string, k: nat)
    requires k >= |Pieces(s)|
    ensures TextAfter(s, k) == None
  {
    hide Pieces, Rest, Present;
  }
}
