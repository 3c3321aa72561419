/**
 * The values the Terraform plugin framework hands to and receives from a
 * provider: string attribute values, diagnostics and the state a handler writes.
 */
module Terraform {
  import opened Wrappers

  /** A framework string attribute value (`types.String`). */
  datatype TfString = Null | Unknown | Known(value: string) {
    /** `ValueString()`: the value, or "" when null or unknown. */
    function ValueString(): string {
      if Known? then value else ""
    }
  }

  /** An entry in `resp.Diagnostics`; the model only ever records errors. */
  datatype Diagnostic =
    | Error(summary: string, detail: string)
    | AttributeError(attribute: string, summary: string)

  /** What a handler did to `resp.State`: nothing, `Set(state)`, or `RemoveResource`. */
  datatype StateWrite<+S> = Unwritten | Written(state: S) | Removed

  /** `resp.State` once the handler returns, given what the framework handed in. */
  function After<S>(handedIn: Option<S>, w: StateWrite<S>): Option<S> {
    match w
    case Unwritten => handedIn
    case Written(s) => Some(s)
    case Removed => None
  }

  /** A `types.String` list built from Go strings: every element known, order kept. */
  function KnownAll(xs: seq<string>): (r: seq<TfString>)
    ensures |r| == |xs|
    ensures forall i :: 0 <= i < |xs| ==> r[i] == Known(xs[i])
  {
    seq(|xs|, i requires 0 <= i < |xs| => Known(xs[i]))
  }
}
