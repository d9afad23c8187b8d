/** The light commands client and servers share (coap_server_client_interface.h), and what a sequence of them means. */
module Light {
  import opened Common

  const CMD_OFF: u8 := 48     // '0'
  const CMD_ON: u8 := 49      // '1'
  const CMD_TOGGLE: u8 := 50  // '2'

  /** The light as its commands mean it: the last ON or OFF, flipped by every TOGGLE since. */
  function LightAfter(cs: seq<u8>): bool {
    if cs == [] then false else
      var c := cs[|cs| - 1];
      if c == CMD_ON then true
      else if c == CMD_OFF then false
      else if c == CMD_TOGGLE then !LightAfter(cs[..|cs| - 1])
      else LightAfter(cs[..|cs| - 1])
  }

  /** The last '0' or '1' decides, initially off, and every '2' since then flips; other bytes count for nothing. */
  lemma {:induction false} LightIsLastLevelFlipped(cs: seq<u8>, rest: seq<u8>)
    requires forall i :: 0 <= i < |rest| ==> rest[i] != 48 && rest[i] != 49
    requires cs == [] || cs[|cs| - 1] == 48 || cs[|cs| - 1] == 49
    ensures LightAfter(cs + rest) == ((cs != [] && cs[|cs| - 1] == 49) != (Count(rest, 50) % 2 == 1))
  {
    if rest == [] {
      assert cs + rest == cs;
    } else {
      assert (cs + rest)[..|cs + rest| - 1] == cs + rest[..|rest| - 1];
      LightIsLastLevelFlipped(cs, rest[..|rest| - 1]);
    }
  }
}
