/** The closed set of urgency codes, with the one priority table and the one
    category table that the rule classifier, the hybrid engine and the
    AI-response validator all consult. */
module Codes {
  import opened Wrappers

  /** D1 emergency, D2 urgency, D7 low-complexity urgency, D3 priority consultation. */
  datatype Code = D1 | D2 | D7 | D3

  /** Larger is more urgent. */
  function Priority(c: Code): (p: nat)
    ensures 1 <= p <= 4
  {
    match c
    case D1 => 4
    case D2 => 3
    case D7 => 2
    case D3 => 1
  }

  function Category(c: Code): string {
    match c
    case D1 => "EMERGENCIA"
    case D2 => "URGENCIA"
    case D7 => "URGENCIA BAJA COMPLEJIDAD"
    case D3 => "CONSULTA PRIORITARIA"
  }

  /** The code as it is written in the knowledge base and in records. */
  function Name(c: Code): string {
    match c
    case D1 => "D1"
    case D2 => "D2"
    case D7 => "D7"
    case D3 => "D3"
  }

  /** Looking a string up in a table keyed by code names: exact match only. */
  function ParseCode(s: string): (r: Option<Code>)
    ensures r.Some? ==> Name(r.value) == s
  {
    if s == "D1" then Some(D1)
    else if s == "D2" then Some(D2)
    else if s == "D7" then Some(D7)
    else if s == "D3" then Some(D3)
    else None
  }

  predicate IsCodeName(s: string) {
    ParseCode(s).Some?
  }

  /** Every code name parses back to its code, and nothing else parses. */
  lemma {:induction false} ParseName(s: string, c: Code)
    ensures ParseCode(s) == Some(c) <==> s == Name(c)
  {
    if s == Name(c) {
      match c
      case D1 =>
      case D2 =>
      case D7 =>
      case D3 =>
    }
  }

  /** The priority table orders the codes strictly: no two codes share a priority. */
  lemma {:induction false} PriorityInjective(a: Code, b: Code)
    ensures Priority(a) == Priority(b) <==> a == b
  {
  }
}
