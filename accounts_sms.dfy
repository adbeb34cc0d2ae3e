/** The request accounts/sms.py hands to the SMS provider: the receptor
    string built from the mobiles and the params dictionary. */
module Sms {

  const Separator := ", "

  /** The params dictionary passed to sms_send. */
  datatype SmsParams = SmsParams(sender: string, receptor: string, message: string)

  /** The mobiles in order, separated by ", ": the reference definition. */
  function Join(mobiles: seq<string>): string
  {
    if |mobiles| == 0 then ""
    else if |mobiles| == 1 then mobiles[0]
    else Join(mobiles[..|mobiles| - 1]) + Separator + mobiles[|mobiles| - 1]
  }

  /** What the loop has built after the given mobiles: each followed by ", ". */
  function Accumulated(mobiles: seq<string>): string
  {
    if mobiles == [] then "" else Accumulated(mobiles[..|mobiles| - 1]) + mobiles[|mobiles| - 1] + Separator
  }

  /** Python's s[:-2]. */
  function DropLastTwo(s: string): string
  {
    if |s| >= 2 then s[..|s| - 2] else ""
  }

  function TotalLength(mobiles: seq<string>): nat
  {
    if mobiles == [] then 0 else TotalLength(mobiles[..|mobiles| - 1]) + |mobiles[|mobiles| - 1]|
  }

  /** For a non-empty list, the accumulated string is the join plus one
      trailing separator. */
  lemma {:induction false} AccumulatedIsJoinPlusSeparator(mobiles: seq<string>)
    requires |mobiles| >= 1
    ensures Accumulated(mobiles) == Join(mobiles) + Separator
  {
    var front := mobiles[..|mobiles| - 1];
    if |mobiles| == 1 {
      assert front == [];
    } else {
      AccumulatedIsJoinPlusSeparator(front);
    }
  }

  /** Accumulating then trimming is joining, for every list. */
  lemma AccumulateThenTrimIsJoin(mobiles: seq<string>)
    ensures DropLastTwo(Accumulated(mobiles)) == Join(mobiles)
  {
    if |mobiles| >= 1 {
      AccumulatedIsJoinPlusSeparator(mobiles);
      var j := Join(mobiles);
      assert (j + Separator)[..|j + Separator| - 2] == j;
    }
  }

  /** The receptor of n >= 1 mobiles is their total length plus 2(n - 1). */
  lemma {:induction false} JoinLength(mobiles: seq<string>)
    requires |mobiles| >= 1
    ensures |Join(mobiles)| == TotalLength(mobiles) + 2 * (|mobiles| - 1)
  {
    var front := mobiles[..|mobiles| - 1];
    if |mobiles| == 1 {
      assert front == [];
    } else {
      JoinLength(front);
    }
  }

  /** The mobiles appear in the receptor in order: the receptor of a longer
      list starts with the receptor of its prefix. */
  lemma {:induction false} JoinExtends(mobiles: seq<string>, m: string)
    requires |mobiles| >= 1
    ensures Join(mobiles + [m]) == Join(mobiles) + Separator + m
  {
    assert (mobiles + [m])[..|mobiles|] == mobiles;
  }

  /** send_sms up to the provider call: the receptor loop and the params. */
  method SendSms(mobiles: seq<string>, messageText: string, lineNumber: string) returns (params: SmsParams)
    ensures params.receptor == Join(mobiles)
    ensures params.sender == lineNumber && params.message == messageText
    ensures |mobiles| == 0 ==> params.receptor == ""
    ensures |mobiles| == 1 ==> params.receptor == mobiles[0]
  {
    var receptor := "";
    for i := 0 to |mobiles|
      invariant receptor == Accumulated(mobiles[..i])
    {
      assert mobiles[..i + 1][..i] == mobiles[..i];
      receptor := receptor + mobiles[i] + Separator;
    }
    assert mobiles[..|mobiles|] == mobiles;
    AccumulateThenTrimIsJoin(mobiles);
    receptor := DropLastTwo(receptor);
    params := SmsParams(lineNumber, receptor, messageText);
  }
}
