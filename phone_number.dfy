/** Random mobile numbers: a carrier's 3-digit prefix followed by 8 random digits, and a
    batch of distinct such numbers. Random draws are passed in as values. */
module PhoneNumber {
  import opened Common

  const CHINA_MOBILE: seq<string> := ["134", "135", "136", "137", "138", "139", "150", "151", "152", "157",
                                      "158", "159", "182", "183", "184", "187", "188", "178", "147", "172", "198"]
  const CHINA_UNICOM: seq<string> := ["130", "131", "132", "145", "155", "156", "166", "171", "175", "176",
                                      "185", "186", "166"]
  const CHINA_TELECOME: seq<string> := ["133", "149", "153", "173", "177", "180", "181", "189", "199"]
  const OP_ERROR := "op标志位有误！"

  /** The prefix table of an operator flag: 0 mobile, 1 unicom, 2 telecom. */
  function Table(op: int): (t: seq<string>)
    requires 0 <= op <= 2
    ensures |t| > 0
  {
    if op == 0 then CHINA_MOBILE else if op == 1 then CHINA_UNICOM else CHINA_TELECOME
  }

  /** A well-formed number: 11 decimal digits whose first three are a table prefix. */
  predicate IsMobile(s: string)
  {
    |s| == 11 && AllDigits(s) && exists op :: 0 <= op <= 2 && s[..3] in Table(op)
  }

  predicate ThreeDigits(p: string)
  {
    |p| == 3 && IsDigit(p[0]) && IsDigit(p[1]) && IsDigit(p[2])
  }

  /** Every prefix in the tables is three digits, so the length check that returns early
      fires only for the error string. */
  lemma TablesAreThreeDigits(op: int)
    requires 0 <= op <= 2
    ensures forall i :: 0 <= i < |Table(op)| ==> ThreeDigits(Table(op)[i])
  {
    if op == 0 {
      forall i | 0 <= i < |CHINA_MOBILE| ensures ThreeDigits(CHINA_MOBILE[i]) { }
    } else if op == 1 {
      forall i | 0 <= i < |CHINA_UNICOM| ensures ThreeDigits(CHINA_UNICOM[i]) { }
    } else {
      forall i | 0 <= i < |CHINA_TELECOME| ensures ThreeDigits(CHINA_TELECOME[i]) { }
    }
  }

  /** createMobile(op): for op 0, 1 or 2 the prefix drawn from that table (`pick` is the
      draw) followed by one decimal digit per digit draw; any other op answers the error
      string itself. */
  method CreateMobile(op: int, pick: nat, digits: seq<nat>) returns (s: string)
    requires |digits| == 8
    ensures 0 <= op <= 2 ==> s == Table(op)[pick % |Table(op)|] + DigitsOf(digits) && IsMobile(s)
    ensures !(0 <= op <= 2) ==> s == OP_ERROR
  {
    var mobile01: string;
    if op == 0 {
      mobile01 := CHINA_MOBILE[pick % |CHINA_MOBILE|];
    } else if op == 1 {
      mobile01 := CHINA_UNICOM[pick % |CHINA_UNICOM|];
    } else if op == 2 {
      mobile01 := CHINA_TELECOME[pick % |CHINA_TELECOME|];
    } else {
      mobile01 := OP_ERROR;
    }
    if 0 <= op <= 2 {
      TablesAreThreeDigits(op);
      assert mobile01 == Table(op)[pick % |Table(op)|];
    }
    if |mobile01| > 3 {
      return mobile01;
    }
    s := AppendDigits(mobile01, digits);
    MobileShape(mobile01, digits, op);
  }

  /** The for loop appending one decimal digit per draw. */
  method AppendDigits(prefix: string, digits: seq<nat>) returns (sb: string)
    ensures sb == prefix + DigitsOf(digits)
  {
    sb := prefix;
    for i := 0 to |digits|
      invariant sb == prefix + DigitsOf(digits[..i])
    {
      var temp := digits[i] % 10;
      assert digits[..i + 1] == digits[..i] + [digits[i]];
      DigitsOfAppend(digits[..i], digits[i]);
      sb := sb + [DigitChar(temp)];
    }
    assert digits[..|digits|] == digits;
  }

  lemma MobileShape(prefix: string, digits: seq<nat>, op: int)
    requires 0 <= op <= 2 && prefix in Table(op) && ThreeDigits(prefix) && |digits| == 8
    ensures IsMobile(prefix + DigitsOf(digits))
  {
    var s := prefix + DigitsOf(digits);
    assert s[..3] == prefix;
    forall k | 0 <= k < 11 ensures IsDigit(s[k]) {
      if k >= 3 { assert s[k] == DigitsOf(digits)[k - 3]; }
    }
  }

  lemma {:induction false} DigitsOfAppend(draws: seq<nat>, d: nat)
    ensures DigitsOf(draws + [d]) == DigitsOf(draws) + [DigitChar(d % 10)]
  {
    if draws == [] {
      assert draws + [d] == [d] && [d][0] == d && [d][1..] == [];
      assert DigitsOf([d]) == [DigitChar(d % 10)] + DigitsOf([]);
    } else {
      var all := draws + [d];
      assert all[0] == draws[0];
      assert all[1..] == draws[1..] + [d];
      DigitsOfAppend(draws[1..], d);
      calc {
        DigitsOf(all);
        [DigitChar(draws[0] % 10)] + DigitsOf(draws[1..] + [d]);
        [DigitChar(draws[0] % 10)] + (DigitsOf(draws[1..]) + [DigitChar(d % 10)]);
        ([DigitChar(draws[0] % 10)] + DigitsOf(draws[1..])) + [DigitChar(d % 10)];
        DigitsOf(draws) + [DigitChar(d % 10)];
      }
    }
  }

  /** The draws one round of the batch loop consumes: the operator flag, the prefix pick
      and eight digits. */
  const ROUND := 10

  /** randomCreatePhone(num): adds numbers built from successive rounds of draws until
      `num` distinct ones are collected (none for num <= 0). When the draws run out first
      the answer is None: the model then cannot tell how the batch ends. */
  method RandomCreatePhone(num: int, draws: seq<nat>) returns (r: Option<seq<string>>)
    ensures r.Some? ==> |r.value| == (if num > 0 then num else 0)
    ensures r.Some? ==> forall i, j :: 0 <= i < j < |r.value| ==> r.value[i] != r.value[j]
    ensures r.Some? ==> forall i :: 0 <= i < |r.value| ==> IsMobile(r.value[i])
  {
    var phoneSet: set<string> := {};
    var list: seq<string> := [];
    var k := 0;
    while |phoneSet| < num
      invariant 0 <= k && Batch(list, phoneSet)
      invariant |list| <= (if num > 0 then num else 0)
      decreases |draws| - k * ROUND
    {
      if (k + 1) * ROUND > |draws| {
        return None;
      }
      var base := k * ROUND;
      var phone := CreateMobile(draws[base] % 3, draws[base + 1], draws[base + 2..base + ROUND]);
      if phone !in phoneSet {
        BatchGrows(list, phoneSet, phone);
        phoneSet := phoneSet + {phone};
        list := list + [phone];
      }
      k := k + 1;
    }
    r := Some(list);
  }

  /** The numbers collected so far: the set and the list hold the same distinct mobile
      numbers. */
  ghost predicate Batch(list: seq<string>, s: set<string>)
  {
    && |s| == |list| && (forall e :: e in s <==> e in list)
    && (forall i, j :: 0 <= i < j < |list| ==> list[i] != list[j])
    && (forall i :: 0 <= i < |list| ==> IsMobile(list[i]))
  }

  /** A new mobile number grows the set and the list by one and keeps them a batch. */
  lemma BatchGrows(list: seq<string>, s: set<string>, x: string)
    requires Batch(list, s) && x !in s && IsMobile(x)
    ensures Batch(list + [x], s + {x})
  {
    var l := list + [x];
    forall i, j | 0 <= i < j < |l| ensures l[i] != l[j] {
      assert l[i] == list[i];
      if j < |list| { assert l[j] == list[j]; } else { assert list[i] in s; }
    }
  }
}
