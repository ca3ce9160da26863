/** Model of `goidToStr` in logger/console.go: the goroutine id column of a log line. */
module Console {
  import Strconv

  /** `goidToStr`: the decimal text of `id` (as `strconv.Itoa` writes it), left-padded
      with '0' to five characters; longer text is returned as it is. */
  function GoidToStr(id: Strconv.Int64): (r: string)
    ensures var s := Strconv.FormatInt(id);
      && |r| == (if |s| >= 5 then |s| else 5)
      && r[|r| - |s|..] == s
      && forall i :: 0 <= i < |r| - |s| ==> r[i] == '0'
  {
    var s := Strconv.FormatInt(id);
    match |s|
    case 1 => "0000" + s
    case 2 => "000" + s
    case 3 => "00" + s
    case 4 => "0" + s
    case _ => s
  }

  /** The padding goes in front of the minus sign. */
  lemma PaddingPrecedesSign()
    ensures GoidToStr(-5) == "000-5"
  {
    assert Strconv.FormatUint(5) == "5";
    assert Strconv.FormatInt(-5) == "-5";
  }

  /** A one-digit id is padded with four zeros. */
  lemma ShortIdIsPadded()
    ensures GoidToStr(7) == "00007"
  {
    assert Strconv.FormatInt(7) == "7";
  }

  /** An id of six digits is longer than the column and is kept whole. */
  lemma LongIdIsKept()
    ensures GoidToStr(123456) == "123456"
  {
    assert Strconv.FormatUint(12) == "12";
    assert Strconv.FormatUint(123) == "123";
    assert Strconv.FormatUint(1234) == "1234";
    assert Strconv.FormatUint(12345) == "12345";
    assert Strconv.FormatInt(123456) == "123456";
  }
}
