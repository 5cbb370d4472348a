/** The emitter's output position (yaml/emitter.py:800-836), shared by the writers of scalars and the state machine. */
module EmitterOutput {
  import opened Options
  import opened Chars

  /** What has been written, and what the last character was. */
  datatype Out = Out(text: Text, column: nat, whitespace: bool, indention: bool, openEnded: bool)

  /** write_indicator */
  function Indicator(o: Out, indicator: Text, needWhitespace: bool, whitespace: bool, indention: bool): Out {
    var data := if o.whitespace || !needWhitespace then indicator else [SPACE] + indicator;
    Out(o.text + data, o.column + |data|, whitespace, o.indention && indention, false)
  }

  /** write_line_break */
  function NextLine(o: Out, lb: Text): Out { Out(o.text + lb, 0, true, true, o.openEnded) }

  /** write_indent */
  function Indented(o: Out, lb: Text, indent: nat): Out {
    var p := if !o.indention || o.column > indent || (o.column == indent && !o.whitespace) then NextLine(o, lb) else o;
    if p.column < indent then p.(text := p.text + Spaces(indent - p.column), column := indent, whitespace := true)
      else p
  }

  /** increase_indent: the indentation inside. */
  function Deeper(indent: Option<nat>, bestIndent: nat, flow: bool, indentless: bool): Option<nat> {
    match indent
    case None => Some(if flow then bestIndent else 0)
    case Some(n) => Some(if indentless then n else n + bestIndent)
  }
}
