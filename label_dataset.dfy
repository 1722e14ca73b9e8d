/** The annotated frames of the training set: a frame's choice strings become a multi-hot vector of
    three labels (IsCombat, HasRedCircle, PullEnded). Image loading and augmentation are left to
    torchvision and are not modelled. */
module LabelDataset {
  import opened Wrappers

  datatype ChoiceLabel = IsCombat | HasRedCircle | PullEnded

  datatype Error = ValueError(choice: string) | IndexError

  /** The enum value of a member. */
  function Name(l: ChoiceLabel): string {
    match l
    case IsCombat => "IsCombat"
    case HasRedCircle => "HasRedCircle"
    case PullEnded => "PullEnded"
  }

  /** `ChoiceLabels(choice)`: the member whose value is the string; anything else raises ValueError. */
  function ParseChoice(s: string): (r: Result<ChoiceLabel, Error>)
    ensures r.Success? ==> Name(r.value) == s
    ensures r.Failure? ==> r.error == ValueError(s)
  {
    if s == "IsCombat" then Success(IsCombat)
    else if s == "HasRedCircle" then Success(HasRedCircle)
    else if s == "PullEnded" then Success(PullEnded)
    else Failure(ValueError(s))
  }

  /** Every member's value parses back to the member. */
  lemma ParseName(l: ChoiceLabel)
    ensures ParseChoice(Name(l)) == Success(l)
  {
  }

  /** `get_value`: the member's position in the label vector. */
  function GetValue(l: ChoiceLabel): (i: nat)
    ensures i < 3
    ensures l == IsCombat ==> i == 0
    ensures l == HasRedCircle ==> i == 1
    ensures l == PullEnded ==> i == 2
  {
    if l == IsCombat then 0 else if l == HasRedCircle then 1 else 2
  }

  /** Distinct members occupy distinct positions. */
  lemma GetValueInjective(a: ChoiceLabel, b: ChoiceLabel)
    ensures GetValue(a) == GetValue(b) ==> a == b
  {
  }

  predicate IsBit(x: real) {
    x == 0.0 || x == 1.0
  }

  /** Some choice in `choices` names the label at position `i`. */
  predicate Hit(choices: seq<string>, i: nat) {
    exists k :: 0 <= k < |choices| && ParseChoice(choices[k]).Success? && GetValue(ParseChoice(choices[k]).value) == i
  }

  predicate AllValid(choices: seq<string>) {
    forall k :: 0 <= k < |choices| ==> ParseChoice(choices[k]).Success?
  }

  /** The error names a choice that does not parse, and every choice before it parses. */
  predicate FirstInvalid(choices: seq<string>, e: Error) {
    exists k :: 0 <= k < |choices| && e == ValueError(choices[k]) && ParseChoice(choices[k]).Failure? && AllValid(choices[..k])
  }

  /** `out` is `v` with exactly the positions named by `choices` set to 1. */
  predicate SetsExactly(out: seq<real>, v: seq<real>, choices: seq<string>)
    requires |v| == 3
  {
    |out| == 3 && forall i :: 0 <= i < 3 ==> out[i] == (if v[i] == 1.0 || Hit(choices, i) then 1.0 else 0.0)
  }

  /** Setting the positions named by `choices` in `v`, stopping at the first invalid choice. */
  function SetChoices(v: seq<real>, choices: seq<string>): (r: Result<seq<real>, Error>)
    requires |v| == 3 && forall i :: 0 <= i < 3 ==> IsBit(v[i])
    ensures r.Success? <==> AllValid(choices)
    ensures r.Failure? ==> FirstInvalid(choices, r.error)
    ensures r.Success? ==> SetsExactly(r.value, v, choices)
    decreases |choices|
  {
    if choices == [] then
      assert forall i :: !Hit(choices, i);
      assert forall i :: 0 <= i < 3 ==> v[i] == (if v[i] == 1.0 then 1.0 else 0.0) by {
        forall i | 0 <= i < 3 ensures v[i] == (if v[i] == 1.0 then 1.0 else 0.0) {
          assert IsBit(v[i]);
        }
      }
      Success(v)
    else match ParseChoice(choices[0])
      case Failure(e) =>
        assert AllValid(choices[..0]);
        Failure(e)
      case Success(l) =>
        var r := SetChoices(v[GetValue(l) := 1.0], choices[1..]);
        HitCons(choices, l);
        AllValidCons(choices);
        if r.Failure? then
          FirstInvalidCons(choices, r.error);
          r
        else r
  }

  /** A valid first choice: a position is hit iff the first choice names it or the rest hits it. */
  lemma HitCons(choices: seq<string>, l: ChoiceLabel)
    requires |choices| > 0 && ParseChoice(choices[0]) == Success(l)
    ensures forall i :: Hit(choices, i) <==> i == GetValue(l) || Hit(choices[1..], i)
  {
    forall i | Hit(choices[1..], i) ensures Hit(choices, i) {
      var k :| 0 <= k < |choices[1..]| && ParseChoice(choices[1..][k]).Success? &&
        GetValue(ParseChoice(choices[1..][k]).value) == i;
      assert choices[k + 1] == choices[1..][k];
    }
    forall i | Hit(choices, i) && i != GetValue(l) ensures Hit(choices[1..], i) {
      var k :| 0 <= k < |choices| && ParseChoice(choices[k]).Success? &&
        GetValue(ParseChoice(choices[k]).value) == i;
      assert k != 0;
      assert choices[1..][k - 1] == choices[k];
    }
    assert Hit(choices, GetValue(l)) by {
      assert ParseChoice(choices[0]).Success? && GetValue(ParseChoice(choices[0]).value) == GetValue(l);
    }
  }

  /** With a valid first choice, all choices are valid iff the rest are. */
  lemma AllValidCons(choices: seq<string>)
    requires |choices| > 0 && ParseChoice(choices[0]).Success?
    ensures AllValid(choices) <==> AllValid(choices[1..])
  {
    if AllValid(choices[1..]) {
      forall k | 0 <= k < |choices| ensures ParseChoice(choices[k]).Success? {
        if k > 0 { assert choices[k] == choices[1..][k - 1]; }
      }
    }
  }

  /** The first invalid choice of the rest is the first invalid choice when the first one parses. */
  lemma FirstInvalidCons(choices: seq<string>, e: Error)
    requires |choices| > 0 && ParseChoice(choices[0]).Success? && FirstInvalid(choices[1..], e)
    ensures FirstInvalid(choices, e)
  {
    var k :| 0 <= k < |choices[1..]| && e == ValueError(choices[1..][k]) && ParseChoice(choices[1..][k]).Failure? && AllValid(choices[1..][..k]);
    assert choices[..k + 1] == [choices[0]] + choices[1..][..k];
    assert AllValid(choices[..k + 1]);
    assert choices[k + 1] == choices[1..][k];
  }

  /** `to_torch_tensor` as a value: the three-entry vector with 1 exactly where some choice points. */
  function LabelVector(choices: seq<string>): (r: Result<seq<real>, Error>)
    ensures r.Success? <==> AllValid(choices)
    ensures r.Failure? ==> FirstInvalid(choices, r.error)
    ensures r.Success? ==> SetsExactly(r.value, [0.0, 0.0, 0.0], choices)
  {
    SetChoices([0.0, 0.0, 0.0], choices)
  }

  /** `to_torch_tensor`: a zero vector whose entries are set to 1 choice by choice. */
  method ToTorchTensor(choices: seq<string>) returns (r: Result<seq<real>, Error>)
    ensures r == LabelVector(choices)
  {
    var output := new real[3];
    output[0], output[1], output[2] := 0.0, 0.0, 0.0;
    assert output[..] == [0.0, 0.0, 0.0];
    var k := 0;
    while k < |choices|
      invariant 0 <= k <= |choices|
      invariant forall i :: 0 <= i < 3 ==> IsBit(output[i])
      invariant LabelVector(choices) == SetChoices(output[..], choices[k..])
    {
      assert choices[k..][1..] == choices[k + 1..];
      var parsed := ParseChoice(choices[k]);
      if parsed.Failure? {
        return Failure(parsed.error);
      }
      output[GetValue(parsed.value)] := 1.0;
      k := k + 1;
    }
    r := Success(output[..]);
  }

  /** Neither the order nor repetitions of the choices matter: the same set of choices gives the same label. */
  lemma LabelVectorSetOnly(a: seq<string>, b: seq<string>)
    requires forall c :: c in a <==> c in b
    ensures LabelVector(a).Success? <==> LabelVector(b).Success?
    ensures LabelVector(a).Success? ==> LabelVector(a) == LabelVector(b)
  {
    assert AllValid(a) <==> AllValid(b) by {
      if AllValid(a) {
        forall k | 0 <= k < |b| ensures ParseChoice(b[k]).Success? {
          assert b[k] in a;
        }
      }
      if AllValid(b) {
        forall k | 0 <= k < |a| ensures ParseChoice(a[k]).Success? {
          assert a[k] in b;
        }
      }
    }
    forall i | 0 <= i < 3 ensures Hit(a, i) <==> Hit(b, i) {
      if Hit(a, i) {
        var k :| 0 <= k < |a| && ParseChoice(a[k]).Success? && GetValue(ParseChoice(a[k]).value) == i;
        assert a[k] in b;
        var j :| 0 <= j < |b| && b[j] == a[k];
      }
      if Hit(b, i) {
        var k :| 0 <= k < |b| && ParseChoice(b[k]).Success? && GetValue(ParseChoice(b[k]).value) == i;
        assert b[k] in a;
        var j :| 0 <= j < |a| && a[j] == b[k];
      }
    }
    if LabelVector(a).Success? {
      assert LabelVector(a).value == LabelVector(b).value;
    }
  }

  /** One labelled frame of the export: the annotation list and the uploaded file's name. */
  datatype ResultEntry = ResultEntry(choices: seq<string>)
  datatype Annotation = Annotation(result: seq<ResultEntry>)
  datatype Record = Record(annotations: seq<Annotation>, fileUpload: string)

  datatype Item = Item(imageName: string, target: seq<real>)

  /** The choices of a record: none when its first annotation has an empty result, otherwise the first
      result's choices; a record without annotations raises IndexError. */
  function ExtractChoices(rec: Record): (r: Result<seq<string>, Error>)
    ensures r.Failure? <==> |rec.annotations| == 0
    ensures r.Success? && |rec.annotations[0].result| == 0 ==> r.value == []
    ensures r.Success? && |rec.annotations[0].result| > 0 ==> r.value == rec.annotations[0].result[0].choices
  {
    if |rec.annotations| == 0 then Failure(IndexError)
    else if |rec.annotations[0].result| == 0 then Success([])
    else Success(rec.annotations[0].result[0].choices)
  }

  /** `__len__`. */
  function Len(dataInfo: seq<Record>): nat {
    |dataInfo|
  }

  /** `__getitem__` without the image: Python indexing (negative indices count from the end), the
      record's choices and their label vector. */
  function GetItem(dataInfo: seq<Record>, idx: int): (r: Result<Item, Error>)
    ensures (idx < -|dataInfo| || idx >= |dataInfo|) ==> r == Failure(IndexError)
    ensures r.Success? ==> |r.value.target| == 3
    ensures -|dataInfo| <= idx < |dataInfo| ==>
      var rec := dataInfo[if idx < 0 then idx + |dataInfo| else idx];
      (r.Success? <==> ExtractChoices(rec).Success? && AllValid(ExtractChoices(rec).value)) &&
      (ExtractChoices(rec).Failure? ==> r == Failure(IndexError)) &&
      (ExtractChoices(rec).Success? && !AllValid(ExtractChoices(rec).value) ==> FirstInvalid(ExtractChoices(rec).value, r.error)) &&
      (r.Success? ==> r.value.imageName == rec.fileUpload && SetsExactly(r.value.target, [0.0, 0.0, 0.0], ExtractChoices(rec).value))
  {
    if idx < -|dataInfo| || idx >= |dataInfo| then Failure(IndexError)
    else
      var rec := dataInfo[if idx < 0 then idx + |dataInfo| else idx];
      match ExtractChoices(rec)
      case Failure(e) => Failure(e)
      case Success(choices) =>
        match LabelVector(choices)
        case Failure(e) => Failure(e)
        case Success(target) => Success(Item(rec.fileUpload, target))
  }

  /** A frame whose first annotation has an empty result is labelled all zeros. */
  lemma EmptyResultIsAllZero(dataInfo: seq<Record>, idx: nat)
    requires idx < |dataInfo|
    requires |dataInfo[idx].annotations| > 0 && dataInfo[idx].annotations[0].result == []
    ensures GetItem(dataInfo, idx) == Success(Item(dataInfo[idx].fileUpload, [0.0, 0.0, 0.0]))
  {
    var v := LabelVector([]).value;
    assert forall i :: !Hit([], i);
    assert v == [0.0, 0.0, 0.0];
  }

  /** `__len__` bounds `__getitem__`: outside -len..len-1 the index raises IndexError; inside it, the
      index fails only for a record without annotations or with an invalid choice. */
  lemma LenIndexRange(dataInfo: seq<Record>, idx: int)
    ensures (idx < -(Len(dataInfo) as int) || idx >= Len(dataInfo)) ==> GetItem(dataInfo, idx) == Failure(IndexError)
    ensures -(Len(dataInfo) as int) <= idx < Len(dataInfo) ==>
      var rec := dataInfo[if idx < 0 then idx + Len(dataInfo) else idx];
      (GetItem(dataInfo, idx) == Failure(IndexError) <==> |rec.annotations| == 0)
  {
  }

  /** Python's negative indexing: index i - len names the same frame as i. */
  lemma NegativeIndex(dataInfo: seq<Record>, i: nat)
    requires i < |dataInfo|
    ensures GetItem(dataInfo, i - |dataInfo|) == GetItem(dataInfo, i)
  {
  }
}
