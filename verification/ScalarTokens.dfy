/** The scalar token the scanner makes of the text in front of it (yaml/scanner.py,
    fetch_more_tokens with the scalar fetchers). */
module ScalarTokens {
  import opened Chars
  import opened FlowScalars
  import opened PlainScalars
  import opened BlockScalars

  datatype Token = Scalar(value: Text, plain: bool, rest: Text) | OtherToken | ScanError

  function Quoted(r: Scanned): Token {
    match r
    case Scanned(v, rest) => Scalar(v, false, rest)
    case Failed => ScanError
  }

  /** The token at s, if it is a scalar; `indent` is the scanner's current indentation, -1 outside
      every block collection, and `flow` whether it is inside brackets. */
  function ScalarToken(flow: bool, indent: int, column: nat, s: Text): Token
    requires s != [] && (s[0] == NUL || |s| > 1) && indent >= -1
  {
    match FirstToken(flow, column, s)
    case DoubleQuoted => Quoted(FlowScalar(true, s[1..]))
    case SingleQuoted => Quoted(FlowScalar(false, s[1..]))
    case Literal => Quoted(BlockScalar(false, indent, s[1..]))
    case Folded => Quoted(BlockScalar(true, indent, s[1..]))
    case PlainScalar => var (v, rest) := Plain(flow, indent + 1, s, column); Scalar(v, true, rest)
    case _ => OtherToken
  }
}
