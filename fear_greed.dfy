/**
  FearGreedFetcher: the five bands of the Fear & Greed Index and the record
  assembled from the index library's reading.  The library call, its
  rounding of the value to an integer and its timestamp are parameters.
*/
module FearGreed {
  import opened Wrappers

  datatype FgiBand = ExtremeFear | Fear | Neutral | Greed | ExtremeGreed {
    function Korean(): string
    {
      match this
      case ExtremeFear => "극단적 공포"
      case Fear => "공포"
      case Neutral => "중립"
      case Greed => "탐욕"
      case ExtremeGreed => "극단적 탐욕"
    }

    function English(): string
    {
      match this
      case ExtremeFear => "Extreme Fear"
      case Fear => "Fear"
      case Neutral => "Neutral"
      case Greed => "Greed"
      case ExtremeGreed => "Extreme Greed"
    }
  }

  /** Closed bands 0..24, 25..44, 45..55, 56..75; every other integer, negatives included, is extreme greed. */
  function BandOf(value: int): (b: FgiBand)
    ensures b == ExtremeFear <==> 0 <= value <= 24
    ensures b == Fear <==> 25 <= value <= 44
    ensures b == Neutral <==> 45 <= value <= 55
    ensures b == Greed <==> 56 <= value <= 75
    ensures b == ExtremeGreed <==> value < 0 || 75 < value
  {
    if 0 <= value <= 24 then ExtremeFear
    else if 25 <= value <= 44 then Fear
    else if 45 <= value <= 55 then Neutral
    else if 56 <= value <= 75 then Greed
    else ExtremeGreed
  }

  /** classify_fgi: no labels for no value, else the Korean and English names of one band. */
  function ClassifyFgi(value: Option<int>): (labels: (Option<string>, Option<string>))
    ensures value == None <==> labels == (None, None)
    ensures value.Some? ==> labels == (Some(BandOf(value.value).Korean()), Some(BandOf(value.value).English()))
  {
    match value
    case None => (None, None)
    case Some(v) =>
      var band := BandOf(v);
      (Some(band.Korean()), Some(band.English()))
  }

  /** The two labels returned together always name the same band. */
  lemma {:induction false} LabelsAgree(value: int, k: FgiBand, e: FgiBand)
    requires ClassifyFgi(Some(value)) == (Some(k.Korean()), Some(e.English()))
    ensures k == e && k == BandOf(value)
  {
  }

  /** Whitespace as Python's `str.strip` sees it, within ASCII. */
  predicate IsSpace(c: char)
  {
    c == ' ' || 9 <= c as int <= 13 || 28 <= c as int <= 31
  }

  function TrimStart(s: string): (t: string)
    ensures |t| <= |s| && t == s[|s| - |t|..]
    ensures t == [] || !IsSpace(t[0])
    ensures forall i :: 0 <= i < |s| - |t| ==> IsSpace(s[i])
  {
    if s != [] && IsSpace(s[0]) then TrimStart(s[1..]) else s
  }

  function TrimEnd(s: string): (t: string)
    ensures |t| <= |s| && t == s[..|t|]
    ensures t == [] || !IsSpace(t[|t| - 1])
    ensures forall i :: |t| <= i < |s| ==> IsSpace(s[i])
  {
    if s != [] && IsSpace(s[|s| - 1]) then TrimEnd(s[..|s| - 1]) else s
  }

  /** `str.strip()`: the longest middle slice without whitespace at either end. */
  function Strip(s: string): (t: string)
    ensures t == [] || (!IsSpace(t[0]) && !IsSpace(t[|t| - 1]))
    ensures exists a, b ::
      && 0 <= a <= b <= |s| && t == s[a..b]
      && (forall i :: 0 <= i < a ==> IsSpace(s[i]))
      && (forall i :: b <= i < |s| ==> IsSpace(s[i]))
  {
    var front := TrimStart(s);
    var t := TrimEnd(front);
    var a := |s| - |front|;
    assert t == s[a..a + |t|];
    t
  }

  predicate IsUpper(c: char) { 'A' <= c <= 'Z' }
  predicate IsLower(c: char) { 'a' <= c <= 'z' }
  predicate IsLetter(c: char) { IsUpper(c) || IsLower(c) }

  function ToUpper(c: char): char
  {
    if IsLower(c) then (c as int - 32) as char else c
  }

  function ToLower(c: char): char
  {
    if IsUpper(c) then (c as int + 32) as char else c
  }

  /** Whether the character at `i` starts a word: nothing cased stands before it. */
  predicate StartsWord(s: string, i: nat)
    requires i < |s|
  {
    i == 0 || !IsLetter(s[i - 1])
  }

  /** One character of the title-cased text: upper-case at a word start, lower-case elsewhere. */
  function TitleChar(s: string, i: nat): (c: char)
    requires i < |s|
    ensures IsLetter(c) == IsLetter(s[i])
    ensures IsLetter(s[i]) && StartsWord(s, i) ==> IsUpper(c)
    ensures IsLetter(s[i]) && !StartsWord(s, i) ==> IsLower(c)
    ensures !IsLetter(s[i]) ==> c == s[i]
    ensures ToLower(c) == ToLower(s[i])
  {
    if StartsWord(s, i) then ToUpper(s[i]) else ToLower(s[i])
  }

  /** `str.title()`: the first letter of every word upper-case, every other letter lower-case. */
  function Title(s: string): (t: string)
    ensures |t| == |s|
    ensures forall i :: 0 <= i < |s| ==> IsLetter(t[i]) == IsLetter(s[i])
    ensures forall i :: 0 <= i < |s| && IsLetter(s[i]) && StartsWord(s, i) ==> IsUpper(t[i])
    ensures forall i :: 0 <= i < |s| && IsLetter(s[i]) && !StartsWord(s, i) ==> IsLower(t[i])
    ensures forall i :: 0 <= i < |s| && !IsLetter(s[i]) ==> t[i] == s[i]
    ensures forall i :: 0 <= i < |s| ==> ToLower(t[i]) == ToLower(s[i])
  {
    seq(|s|, i requires 0 <= i < |s| => TitleChar(s, i))
  }

  /** Title-casing never turns whitespace into text or text into whitespace. */
  lemma TitleKeepsSpaces(s: string, i: int)
    requires 0 <= i < |s|
    ensures |Title(s)| == |s| && IsSpace(Title(s)[i]) == IsSpace(s[i])
  {
    var t := Title(s);
    if !IsLetter(s[i]) {
      assert t[i] == s[i];
    }
  }

  /** Title-casing twice changes nothing more. */
  lemma TitleIdempotent(s: string)
    ensures Title(Title(s)) == Title(s)
  {
    var t := Title(s);
    forall i | 0 <= i < |s| ensures Title(t)[i] == t[i] {
      if i > 0 {
        assert IsLetter(t[i - 1]) == IsLetter(s[i - 1]);
      }
    }
  }

  /**
    The English status: the library's description, stripped and
    title-cased, whenever it is a non-empty text; otherwise the label that
    goes with the value.
  */
  function StatusEn(description: Option<string>, byValue: Option<string>): (r: Option<string>)
    ensures description.Some? && description.value != "" ==> r == Some(Title(Strip(description.value)))
    ensures description == None || description == Some("") ==> r == byValue
  {
    if description.Some? && description.value != "" then Some(Title(Strip(description.value))) else byValue
  }

  /** A description made only of spaces is still taken, and becomes the empty status. */
  lemma BlankDescriptionGivesEmptyStatus(byValue: Option<string>)
    ensures StatusEn(Some("  "), byValue) == Some("")
  {
    assert "  "[1..] == " " && " "[1..] == "";
    assert TrimStart("  ") == "";
    assert Strip("  ") == "";
  }

  /** A status taken from the description has no surrounding whitespace and is already in title form. */
  lemma StatusEnNormalised(description: string, byValue: Option<string>)
    requires description != ""
    ensures StatusEn(Some(description), byValue).Some?
    ensures var t := StatusEn(Some(description), byValue).value;
      (t == [] || (!IsSpace(t[0]) && !IsSpace(t[|t| - 1]))) && Title(t) == t
  {
    var s := Strip(description);
    TitleIdempotent(s);
    assert StatusEn(Some(description), byValue) == Some(Title(s));
    if s != [] {
      TitleKeepsSpaces(s, 0);
      TitleKeepsSpaces(s, |s| - 1);
    }
  }

  /** The index reading: rounded value, both labels and the update time. */
  datatype FgiResult = FgiResult(value: Option<int>, statusKr: Option<string>, statusEn: Option<string>, timestamp: string)

  /**
    get_latest_fgi: classify the already-rounded value (none when the library
    gave no number) and let a non-empty description override the English label.
  */
  function LatestFgi(value: Option<int>, description: Option<string>, timestamp: string): (r: FgiResult)
    ensures r.value == value && r.timestamp == timestamp
    ensures r.statusKr == ClassifyFgi(value).0
    ensures r.statusEn == StatusEn(description, ClassifyFgi(value).1)
  {
    var (statusKr, statusEnByValue) := ClassifyFgi(value);
    FgiResult(value, statusKr, StatusEn(description, statusEnByValue), timestamp)
  }
}
