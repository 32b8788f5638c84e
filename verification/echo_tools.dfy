/** The echo server's one tool. */
module EchoTools {

  const Prefix: string := "Echo: "

  /** `echo(text)`: the text, prefixed with "Echo: ". */
  function Echo(text: string): (r: string)
    ensures |r| == |text| + |Prefix|
    ensures r[..|Prefix|] == Prefix
    ensures r[|Prefix|..] == text
  {
    Prefix + text
  }

  /** Different inputs give different outputs. */
  lemma EchoInjective(a: string, b: string)
    requires Echo(a) == Echo(b)
    ensures a == b
  {
    assert a == Echo(a)[|Prefix|..];
  }
}
