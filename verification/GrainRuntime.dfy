/**
 The boundary around the normalizer (app/semantics/grain_normalizer.py, `normalize`, and
 app/semantics/grain_runtime.py, `inspect`), for any validator and any rewrite.
 */
module GrainRuntime {
  import opened Seqs

  datatype Code =
    | PASS | NOT_APPLICABLE | NO_SQL
    | UNRESOLVED_LINEAGE | UNRESOLVED_MEASURE | UNRESOLVED_GRAIN | UNRESOLVED_RELATIONSHIP
    | PARENT_MEASURE_FANOUT | DISTINCT_VALUE_FANOUT_MASK | INCOMPATIBLE_MEASURE_GRAINS | UNSAFE_ROLLUP

  datatype Status = UNCHANGED | NORMALIZED | ABSTAIN

  datatype Normalization = Normalization(status: Status, output: string, inputCode: Code, outputCode: Code)

  predicate Safe(code: Code) { code.PASS? || code.NOT_APPLICABLE? }

  function Abstained(sql: string, code: Code): Normalization { Normalization(ABSTAIN, sql, code, code) }

  /** What the parser makes of a text. */
  datatype Parsed = Blank | Unreadable | SelectQuery | OtherStatement

  /** `rewrite` is None where the rewrite abstains. */
  function Normalize(sql: string, parse: string -> Parsed, validate: string -> Code, rewrite: string -> Option<string>)
    : Normalization
  {
    if parse(sql).Blank? then Abstained(sql, validate(sql))
    else if parse(sql).Unreadable? then Abstained(sql, UNRESOLVED_LINEAGE)
    else
      var code := validate(sql);
      if code.DISTINCT_VALUE_FANOUT_MASK? || code.UNSAFE_ROLLUP? then Abstained(sql, code)
      else if !code.PARENT_MEASURE_FANOUT? then Normalization(UNCHANGED, sql, code, code)
      else if !parse(sql).SelectQuery? then Abstained(sql, code)
      else
        var normalized := rewrite(sql);
        if normalized.None? || !parse(normalized.value).SelectQuery? then Abstained(sql, code)
        else if !Safe(validate(normalized.value)) then Abstained(sql, code)
        else Normalization(NORMALIZED, normalized.value, code, validate(normalized.value))
  }

  /** A normalized text is left as it is: normalizing is idempotent on its output. */
  lemma NormalizeTwice(sql: string, parse: string -> Parsed, validate: string -> Code, rewrite: string -> Option<string>)
    ensures var once := Normalize(sql, parse, validate, rewrite);
            var again := Normalize(once.output, parse, validate, rewrite);
      && again.output == once.output
      && (once.status.NORMALIZED? ==> again.status.UNCHANGED? && Safe(again.outputCode))
      && (!once.status.NORMALIZED? ==> again == once && once.output == sql)
  {
  }

  /** A text is normalized exactly when it is a readable SELECT with a fan-out, and its rewrite is one the validator calls safe. */
  lemma NormalizesWhen(sql: string, parse: string -> Parsed, validate: string -> Code, rewrite: string -> Option<string>)
    ensures Normalize(sql, parse, validate, rewrite).status.NORMALIZED? <==>
              && parse(sql) == SelectQuery && validate(sql) == PARENT_MEASURE_FANOUT
              && rewrite(sql).Some? && parse(rewrite(sql).value) == SelectQuery
              && validate(rewrite(sql).value) in {PASS, NOT_APPLICABLE}
    ensures Normalize(sql, parse, validate, rewrite).status.NORMALIZED? ==>
              Normalize(sql, parse, validate, rewrite).output == rewrite(sql).value
  {
  }

  datatype RuntimeStatus = Unchanged | Normalized | Rejected

  datatype Decision = Decision(status: RuntimeStatus, selected: string, inputCode: Code, outputCode: Code)

  predicate DefiniteViolation(code: Code) {
    code.DISTINCT_VALUE_FANOUT_MASK? || code.INCOMPATIBLE_MEASURE_GRAINS? || code.UNSAFE_ROLLUP?
  }

  /** `normalize` is None where the normalizer raises. */
  function Inspect(sql: string, validate: string -> Code, normalize: string -> Option<Normalization>): Decision {
    var code := validate(sql);
    if DefiniteViolation(code) then Decision(Rejected, sql, code, code)
    else if !code.PARENT_MEASURE_FANOUT? then Decision(Unchanged, sql, code, code)
    else
      var result := normalize(sql);
      if result.None? then Decision(Rejected, sql, code, code)
      else if !result.value.status.NORMALIZED? then Decision(Rejected, sql, code, result.value.outputCode)
      else if !Safe(result.value.outputCode) then Decision(Rejected, sql, code, result.value.outputCode)
      else Decision(Normalized, result.value.output, code, result.value.outputCode)
  }

  /**
   Whatever the normalizer answers: a query passes as it is exactly when the validator calls it
   neither a violation nor a fan-out, and a fan-out passes exactly as a rewrite reported safe.
   */
  lemma FailsClosed(sql: string, validate: string -> Code, normalize: string -> Option<Normalization>)
    ensures var d := Inspect(sql, validate, normalize);
      && (d.selected != sql || d.status.Normalized? ==>
            d.status.Normalized? && validate(sql).PARENT_MEASURE_FANOUT? && Safe(d.outputCode)
            && normalize(sql) == Some(Normalization(NORMALIZED, d.selected, normalize(sql).value.inputCode, d.outputCode)))
      && (d.status.Unchanged? <==> !DefiniteViolation(validate(sql)) && !validate(sql).PARENT_MEASURE_FANOUT?)
      && (d.status.Unchanged? ==> d.selected == sql)
      && (d.status.Normalized? <==>
            validate(sql).PARENT_MEASURE_FANOUT? && normalize(sql).Some? && normalize(sql).value.status.NORMALIZED?
            && (normalize(sql).value.outputCode.PASS? || normalize(sql).value.outputCode.NOT_APPLICABLE?))
  {
  }

  /** With this normalizer, what the boundary lets through the validator itself does not call a violation. */
  lemma SelectedIsNoViolation(sql: string, parse: string -> Parsed, validate: string -> Code,
                              rewrite: string -> Option<string>, normalize: string -> Option<Normalization>)
    requires normalize(sql) == Some(Normalize(sql, parse, validate, rewrite))
    ensures var d := Inspect(sql, validate, normalize);
      !d.status.Rejected? ==> !DefiniteViolation(validate(d.selected)) && !validate(d.selected).PARENT_MEASURE_FANOUT?
  {
  }
}
