/** internal/adapters/httpx/binding_validator.go: turning the validation
    errors of a bound request into readable messages. A message is chosen by
    the failed tag, names the field by its `label` tag when it has one, and
    shows the tag's parameter when the message has room for it. */
module Binding {
  import opened Wrappers
  import opened Text
  import opened Validation
  import opened AppErrors

  /** A message template: the field's label, then a text, or the label, a
      text, the tag's parameter and a text. */
  datatype Template = OneSlot(tail: string) | TwoSlots(middle: string, tail: string)

  /** The format string of a template, as written in the `messages` map. */
  function Format(t: Template): string {
    match t
    case OneSlot(tail) => Verb + tail
    case TwoSlots(middle, tail) => Verb + (middle + (Verb + tail))
  }

  const RequiredText := " é obrigatório"
  const UuidText := " inválido"
  const EmailText := " deve ser um e-mail válido"
  const GteText := " deve ser maior ou igual a "
  const LteText := " deve ser menor ou igual a "
  const MinText := " deve ter no mínimo "
  const MaxText := " deve ter no máximo "
  const CharactersText := " caracteres"
  const OneofText := " deve ser um dos seguintes valores: "
  const NumericText := " deve ser um número válido"
  const FqdnText := " deve ser um nome de domínio válido"

  /** The `messages` map, by tag. */
  function MessageTemplate(tag: string): Option<Template> {
    if tag == "required" then Some(OneSlot(RequiredText))
    else if tag == "uuid" then Some(OneSlot(UuidText))
    else if tag == "email" then Some(OneSlot(EmailText))
    else if tag == "gte" then Some(TwoSlots(GteText, ""))
    else if tag == "lte" then Some(TwoSlots(LteText, ""))
    else if tag == "min" then Some(TwoSlots(MinText, CharactersText))
    else if tag == "max" then Some(TwoSlots(MaxText, CharactersText))
    else if tag == "oneof" then Some(TwoSlots(OneofText, ""))
    else if tag == "numeric" then Some(OneSlot(NumericText))
    else if tag == "fqdn" then Some(OneSlot(FqdnText))
    else None
  }

  /** `tmplHasParam`: the tags whose message shows the parameter. */
  predicate TmplHasParam(tag: string) {
    tag == "gte" || tag == "lte" || tag == "min" || tag == "max" || tag == "oneof"
  }

  /** tmplHasParam agrees with the templates: a tag has a message with a
      place for its parameter exactly when tmplHasParam holds of it. */
  lemma TmplHasParamTwoSlots(tag: string)
    ensures TmplHasParam(tag) <==> MessageTemplate(tag).Some? && MessageTemplate(tag).value.TwoSlots?
  {
  }

  /** No template text holds a `%`, so each verb of a format is one of the
      two slots. */
  lemma TemplateTextsPlain()
    ensures NoPercent(RequiredText) && NoPercent(UuidText) && NoPercent(EmailText)
    ensures NoPercent(GteText) && NoPercent(LteText) && NoPercent(MinText) && NoPercent(MaxText)
    ensures NoPercent(CharactersText) && NoPercent(OneofText) && NoPercent(NumericText) && NoPercent(FqdnText)
    ensures NoPercent("")
  {
  }

  lemma TemplatePlain(tag: string)
    requires MessageTemplate(tag).Some?
    ensures match MessageTemplate(tag).value
      case OneSlot(tail) => NoPercent(tail)
      case TwoSlots(middle, tail) => NoPercent(middle) && NoPercent(tail)
  {
    TemplateTextsPlain();
  }

  const UnknownTagPrefix := "Erro de validação no campo '"
  const UnknownTagSuffix := "'"

  /** `resolveFieldLabel`: the label of the field, or its name when the
      struct has no such field. */
  function ResolveFieldLabel(labels: map<string, string>, fieldName: string): (caption: string)
    ensures fieldName in labels ==> caption == labels[fieldName]
    ensures fieldName !in labels ==> caption == fieldName
  {
    if fieldName in labels then labels[fieldName] else fieldName
  }

  /** `buildErrorMessage`, given the label map of the bound struct. */
  function BuildErrorMessage(labels: map<string, string>, verr: FieldError): string {
    var caption := ResolveFieldLabel(labels, verr.field);
    match MessageTemplate(verr.tag)
    case Some(tmpl) =>
      if verr.param != "" && TmplHasParam(verr.tag) then Sprintf(Format(tmpl), [caption, verr.param])
      else Sprintf(Format(tmpl), [caption])
    case None => Sprintf(UnknownTagPrefix + (Verb + UnknownTagSuffix), [caption])
  }

  /** A template filled with the label alone, or a two-slot one with the
      label and a parameter. A second slot left without an argument prints
      Go's `%!s(MISSING)`. */
  lemma FillTemplate(t: Template, caption: string, param: string, withParam: bool)
    requires t.OneSlot? ==> NoPercent(t.tail) && !withParam
    requires t.TwoSlots? ==> NoPercent(t.middle) && NoPercent(t.tail)
    ensures Sprintf(Format(t), if withParam then [caption, param] else [caption]) ==
      match t
      case OneSlot(tail) => caption + tail
      case TwoSlots(middle, tail) => caption + middle + (if withParam then param else MissingVerb) + tail
  {
    match t
    case OneSlot(tail) =>
      SprintfOne(Verb, "", tail, caption);
      assert "" + (Verb + tail) == Format(t);
      assert "" + (caption + tail) == caption + tail;
    case TwoSlots(middle, tail) =>
      if withParam {
        SprintfTwo("", middle, tail, caption, param);
        assert "" + (Verb + (middle + (Verb + tail))) == Format(t);
        assert "" + (caption + (middle + (param + tail))) == caption + middle + param + tail;
      } else {
        SprintfMissingSecond(middle, tail, caption);
        assert caption + (middle + (MissingVerb + tail)) == caption + middle + MissingVerb + tail;
      }
  }

  /** What a message says: the label and the template's text, with the
      parameter in its place when the template has one and it is not
      empty; for an unknown tag, the fixed sentence around the label. */
  lemma BuildErrorMessageShape(labels: map<string, string>, verr: FieldError)
    ensures var caption := ResolveFieldLabel(labels, verr.field);
      var msg := BuildErrorMessage(labels, verr);
      match MessageTemplate(verr.tag)
      case None => msg == UnknownTagPrefix + caption + UnknownTagSuffix
      case Some(OneSlot(tail)) => msg == caption + tail
      case Some(TwoSlots(middle, tail)) =>
        msg == caption + middle + (if verr.param != "" then verr.param else MissingVerb) + tail
  {
    var caption := ResolveFieldLabel(labels, verr.field);
    var m := MessageTemplate(verr.tag);
    if m.None? {
      assert NoPercent(UnknownTagPrefix);
      SprintfOne(Verb, UnknownTagPrefix, UnknownTagSuffix, caption);
      assert UnknownTagPrefix + (caption + UnknownTagSuffix) == UnknownTagPrefix + caption + UnknownTagSuffix;
    } else {
      TemplatePlain(verr.tag);
      TmplHasParamTwoSlots(verr.tag);
      FillTemplate(m.value, caption, verr.param, verr.param != "" && TmplHasParam(verr.tag));
    }
  }

  /** A struct type as `getOrCacheFieldLabels` reads it: its identity and
      its fields' names and `label` tags, in declaration order. */
  datatype StructField = StructField(name: string, labelTag: string)
  datatype StructType = StructType(id: nat, fields: seq<StructField>)

  /** The label map of a list of fields: each name mapped to its `label`
      tag, or to itself when the tag is empty. */
  function FieldLabels(fields: seq<StructField>): map<string, string>
  {
    if fields == [] then map[]
    else
      var f := fields[|fields| - 1];
      FieldLabels(fields[..|fields| - 1])[f.name := LabelOf(f)]
  }

  /** The label a field gets: its `label` tag, or its name when the tag is
      empty. */
  function LabelOf(f: StructField): string {
    if f.labelTag == "" then f.name else f.labelTag
  }

  /** The map's keys are exactly the names of the fields. */
  lemma {:induction false} FieldLabelsDomain(fields: seq<StructField>, name: string)
    ensures name in FieldLabels(fields) <==> exists i :: 0 <= i < |fields| && fields[i].name == name
  {
    if fields != [] {
      var init := fields[..|fields| - 1];
      FieldLabelsDomain(init, name);
      if name in FieldLabels(init) {
        var i :| 0 <= i < |init| && init[i].name == name;
        assert fields[i] == init[i];
      }
      if exists i :: 0 <= i < |fields| - 1 && fields[i].name == name {
        var i :| 0 <= i < |fields| - 1 && fields[i].name == name;
        assert init[i] == fields[i];
      }
    }
  }

  /** A field whose name no later field repeats (every field of a Go
      struct) is mapped to its label. */
  lemma {:induction false} FieldLabelsValue(fields: seq<StructField>, i: int)
    requires 0 <= i < |fields|
    requires forall j :: i < j < |fields| ==> fields[j].name != fields[i].name
    ensures fields[i].name in FieldLabels(fields)
    ensures FieldLabels(fields)[fields[i].name] == LabelOf(fields[i])
  {
    if i < |fields| - 1 {
      var init := fields[..|fields| - 1];
      assert init[i] == fields[i];
      FieldLabelsValue(init, i);
    }
  }

  /** `resolveFieldLabel` on a struct: a field is shown by its label, and a
      name that is no field of the struct is shown as it is. */
  lemma ResolveFieldLabelOfStruct(fields: seq<StructField>, name: string)
    requires forall i, j :: 0 <= i < j < |fields| ==> fields[i].name != fields[j].name
    ensures forall i :: 0 <= i < |fields| && fields[i].name == name ==>
      ResolveFieldLabel(FieldLabels(fields), name) == LabelOf(fields[i])
    ensures (forall i :: 0 <= i < |fields| ==> fields[i].name != name) ==>
      ResolveFieldLabel(FieldLabels(fields), name) == name
  {
    FieldLabelsDomain(fields, name);
    forall i | 0 <= i < |fields| && fields[i].name == name
      ensures ResolveFieldLabel(FieldLabels(fields), name) == LabelOf(fields[i])
    {
      FieldLabelsValue(fields, i);
    }
  }

  /** The process-wide label cache, `labelCache`, keyed by struct type. */
  class LabelCache {
    var cache: map<StructType, map<string, string>>

    /** Every cached map is the label map of its type. */
    predicate Valid()
      reads this
    {
      forall t :: t in cache ==> cache[t] == FieldLabels(t.fields)
    }

    constructor ()
      ensures Valid() && cache == map[]
    {
      cache := map[];
    }

    /** `getOrCacheFieldLabels`: the cached map when there is one, and
        otherwise the map built field by field, which is then stored. */
    method GetOrCacheFieldLabels(t: StructType) returns (labels: map<string, string>)
      requires Valid()
      modifies this
      ensures Valid()
      ensures labels == FieldLabels(t.fields)
      ensures t in old(cache) ==> cache == old(cache)
      ensures t !in old(cache) ==> cache == old(cache)[t := labels]
    {
      if t in cache {
        return cache[t];
      }
      labels := map[];
      for i := 0 to |t.fields|
        invariant labels == FieldLabels(t.fields[..i])
      {
        var field := t.fields[i];
        var caption := field.labelTag;
        if caption == "" {
          caption := field.name;
        }
        labels := labels[field.name := caption];
        assert t.fields[..i + 1][..i] == t.fields[..i];
      }
      assert t.fields[..|t.fields|] == t.fields;
      cache := cache[t := labels];
    }
  }

  /** The default messages of the four binding entry points. */
  const ParamsInvalid := "Parâmetros inválidos."
  const SearchParamsInvalid := "Parâmetros de pesquisa inválidos."
  const RequestDataInvalid := "Dados da requisição inválido."

  /** What the bind function reports: success with the bound value, the
      validator's errors, or any other failure (malformed JSON, say). */
  datatype BindOutcome<T> = Bound(dto: T) | ValidationFailed(errs: seq<FieldError>) | OtherFailure

  /** The errors attached to the request context with `ctx.Error`. */
  class RequestContext {
    var errors: seq<AppError>

    constructor ()
      ensures errors == []
    {
      errors := [];
    }

    method Error(e: AppError)
      modifies this
      ensures errors == old(errors) + [e]
    {
      errors := errors + [e];
    }
  }

  /** The messages `bindAndValidate` reports for a list of validation
      errors: one per error, in order. */
  function ValidationMessages(labels: map<string, string>, errs: seq<FieldError>): (msgs: seq<string>)
    ensures |msgs| == |errs|
    ensures forall i :: 0 <= i < |errs| ==> msgs[i] == BuildErrorMessage(labels, errs[i])
  {
    seq(|errs|, i requires 0 <= i < |errs| => BuildErrorMessage(labels, errs[i]))
  }

  /** The loop of `bindAndValidate` over the validation errors: one
      message each, every one looking the labels up through the cache. */
  method CollectMessages(cache: LabelCache, dtoType: StructType, verrs: seq<FieldError>) returns (msgs: seq<string>)
    requires cache.Valid()
    modifies cache
    ensures cache.Valid()
    ensures msgs == ValidationMessages(FieldLabels(dtoType.fields), verrs)
    ensures verrs != [] ==> cache.cache == old(cache.cache)[dtoType := FieldLabels(dtoType.fields)]
    ensures verrs == [] ==> cache.cache == old(cache.cache)
  {
    var errs := new string[|verrs|];
    ghost var stored := old(cache.cache)[dtoType := FieldLabels(dtoType.fields)];
    assert dtoType in old(cache.cache) ==> stored == old(cache.cache);
    for i := 0 to |verrs|
      invariant cache.Valid()
      invariant cache.cache == if i == 0 then old(cache.cache) else stored
      invariant forall j :: 0 <= j < i ==> errs[j] == BuildErrorMessage(FieldLabels(dtoType.fields), verrs[j])
    {
      var labels := cache.GetOrCacheFieldLabels(dtoType);
      errs[i] := BuildErrorMessage(labels, verrs[i]);
    }
    msgs := errs[..];
  }

  /** `bindAndValidate`: on success the bound value; on failure nothing,
      after attaching one unprocessable-entity error to the context whose
      messages are those of the validation errors in order, or the default
      message alone. */
  method BindAndValidate<T>(ctx: RequestContext, cache: LabelCache, dtoType: StructType,
                            outcome: BindOutcome<T>, defaultMsg: string)
    returns (dto: Option<T>, ok: bool)
    requires cache.Valid()
    modifies ctx, cache
    ensures cache.Valid()
    ensures outcome.ValidationFailed? && outcome.errs != [] ==>
      cache.cache == old(cache.cache)[dtoType := FieldLabels(dtoType.fields)]
    ensures !(outcome.ValidationFailed? && outcome.errs != []) ==> cache.cache == old(cache.cache)
    ensures ok <==> outcome.Bound?
    ensures outcome.Bound? ==> dto == Some(outcome.dto) && ctx.errors == old(ctx.errors)
    ensures outcome.ValidationFailed? ==>
      && dto.None?
      && ctx.errors == old(ctx.errors) + [NewUnprocessableEntityError(ValidationMessages(FieldLabels(dtoType.fields), outcome.errs))]
    ensures outcome.OtherFailure? ==>
      && dto.None?
      && ctx.errors == old(ctx.errors) + [NewUnprocessableEntityError([defaultMsg])]
  {
    match outcome
    case Bound(v) =>
      return Some(v), true;
    case ValidationFailed(verrs) =>
      var msgs := CollectMessages(cache, dtoType, verrs);
      ctx.Error(NewUnprocessableEntityError(msgs));
      return None, false;
    case OtherFailure =>
      ctx.Error(NewUnprocessableEntityError([defaultMsg]));
      return None, false;
  }
}
