/** The reflection anchor (src/engine/reflection-anchor.ts): the gold each
    kind of reflection earns, and when a method log counts as filled in. */
module ReflectionAnchor {
  import opened Types
  import Strings

  /** `calcReflectionGold`: 3 for a discovery or a method log, 2 for an open question. */
  function CalcReflectionGold(kind: ReflectionType): (gold: int)
    ensures gold == 2 <==> kind == OpenQuestion
    ensures gold == 3 <==> kind != OpenQuestion
  {
    match kind
    case Discovery => 3
    case OpenQuestion => 2
    case MethodLogType => 3
  }

  /** `validateMethodLog`: no field is empty after trimming. */
  function ValidateMethodLog(log: MethodLog): (ok: bool)
    ensures ok <==> !Strings.IsBlank(log.problem) && !Strings.IsBlank(log.approach) && !Strings.IsBlank(log.principle)
  {
    Strings.TrimEmptyIffBlank(log.problem);
    Strings.TrimEmptyIffBlank(log.approach);
    Strings.TrimEmptyIffBlank(log.principle);
    Strings.Trim(log.problem) != "" && Strings.Trim(log.approach) != "" && Strings.Trim(log.principle) != ""
  }

  /** Any one field that is empty or white space only fails the log, whatever
      the others hold. */
  lemma OneBlankFieldFails(log: MethodLog)
    requires Strings.IsBlank(log.problem) || Strings.IsBlank(log.approach) || Strings.IsBlank(log.principle)
    ensures !ValidateMethodLog(log)
  {
  }

  function TypeLabel(kind: ReflectionType): string
  {
    match kind
    case Discovery => "发现时刻"
    case OpenQuestion => "开放问题"
    case MethodLogType => "方法日志"
  }

  function TypeIcon(kind: ReflectionType): string
  {
    match kind
    case Discovery => "💡"
    case OpenQuestion => "❓"
    case MethodLogType => "📝"
  }

  /** The label and icon tables cover every kind, and tell the kinds apart. */
  lemma TablesDistinguishKinds(a: ReflectionType, b: ReflectionType)
    requires a != b
    ensures TypeLabel(a) != TypeLabel(b) && TypeIcon(a) != TypeIcon(b)
    ensures TypeLabel(a) != "" && TypeIcon(a) != ""
  {
  }
}
