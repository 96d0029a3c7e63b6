/**
 * The `Configuration` component: a working draft of the module's
 * configuration, edited locally, written back with Apply, re-read with
 * Refresh, reloaded on the module side with Reload, and rendered as one
 * form control per configured field.
 */
module Config {
  import opened Wrappers
  import opened Text
  import Remote

  /** The component state: field name to current value. */
  type Draft = map<string, Remote.Value>

  /** `getInitialState`: only `Verbose: false`. */
  const InitialDraft: Draft := map["Verbose" := Remote.Bool(false)]

  /** The name of the one field rendered as a select over the module's encodings. */
  const EncodingField: string := "Encoding"

  datatype OptionView = OptionView(caption: string, selected: bool)

  datatype Control =
    | Select(options: seq<OptionView>)
    | Checkbox(checked: bool)
    | TextBox(text: string)

  /** What rendering one field yields: nothing, a form row, or a TypeError thrown during render. */
  datatype FieldView = Hidden | Shown(control: Control) | Failed

  /**
   * What rendering the whole form yields: the field rows (followed by the
   * Apply, Refresh and Reload buttons), or a thrown TypeError when rendering
   * one field threw, since the error escapes `fields.map(renderField)`.
   */
  datatype FormView = FormFailed | Form(views: seq<FieldView>)

  /** The draft and encoding list make rendering the encoding field throw. */
  predicate EncodingFails(draft: Draft, encodings: Option<seq<string>>)
  {
    EncodingField in draft &&
    (encodings.None? || (|encodings.value| > 0 && draft[EncodingField].Bool?))
  }

  /** `setState(data)`: a shallow merge in which the keys of `data` win. */
  function Merge(draft: Draft, data: Draft): (r: Draft)
    ensures r.Keys == draft.Keys + data.Keys
    ensures forall k :: k in data ==> r[k] == data[k]
    ensures forall k :: k in draft && k !in data ==> r[k] == draft[k]
  {
    draft + data
  }

  /** The `<option>` list of the encoding select, for current value `current`. */
  function MakeOptions(encodings: seq<string>, current: string): (opts: seq<OptionView>)
    ensures |opts| == |encodings|
    ensures forall i :: 0 <= i < |opts| ==> opts[i].caption == Upper(encodings[i])
    ensures forall i :: 0 <= i < |opts| ==> (opts[i].selected <==> Upper(current) == opts[i].caption)
  {
    if encodings == [] then []
    else
      var caption := Upper(encodings[0]);
      [OptionView(caption, Upper(current) == caption)] + MakeOptions(encodings[1..], current)
  }

  /** `renderField(id)`: the control is chosen from the field's name and its value's type. */
  function RenderField(id: string, draft: Draft, encodings: Option<seq<string>>): (v: FieldView)
    // a field is rendered exactly when its key is in the draft
    ensures v == Hidden <==> id !in draft
    // only the encoding field becomes a select, and it is the only field that can fail
    ensures v.Shown? ==> (v.control.Select? <==> id == EncodingField)
    ensures v == Failed <==> id == EncodingField && EncodingFails(draft, encodings)
    // other fields: a checkbox for a boolean, a text box otherwise, showing the draft value
    ensures id in draft && id != EncodingField ==>
              v == Shown(match draft[id]
                         case Bool(b) => Checkbox(b)
                         case Text(s) => TextBox(s))
    // the select lists every encoding upper-cased, the draft's own value selected
    ensures v.Shown? && v.control.Select? ==>
              && encodings.Some?
              && |v.control.options| == |encodings.value|
              && forall i :: 0 <= i < |encodings.value| ==>
                   && v.control.options[i].caption == Upper(encodings.value[i])
                   && (v.control.options[i].selected <==>
                         draft[id].Text? && Upper(draft[id].s) == Upper(encodings.value[i]))
  {
    if id !in draft then Hidden
    else if id == EncodingField then
      match encodings
      case None => Failed
      case Some(es) =>
        if es == [] then Shown(Select([]))
        else
          match draft[id]
          case Text(s) => Shown(Select(MakeOptions(es, s)))
          case Bool(_) => Failed
    else
      match draft[id]
      case Bool(b) => Shown(Checkbox(b))
      case Text(s) => Shown(TextBox(s))
  }

  /** `fields.map(renderField)` inside `render`: the first field that throws aborts the whole form. */
  function RenderForm(fields: seq<string>, draft: Draft, encodings: Option<seq<string>>): (r: FormView)
    ensures r.FormFailed? <==>
              exists i :: 0 <= i < |fields| && RenderField(fields[i], draft, encodings) == Failed
    ensures r.Form? ==>
              && |r.views| == |fields|
              && forall i :: 0 <= i < |fields| ==> r.views[i] == RenderField(fields[i], draft, encodings)
  {
    if fields == [] then Form([])
    else
      var head := RenderField(fields[0], draft, encodings);
      var rest := RenderForm(fields[1..], draft, encodings);
      assert forall i :: 0 < i < |fields| ==> fields[i] == fields[1..][i - 1];
      if head == Failed then FormFailed
      else
        match rest
        case FormFailed => FormFailed
        case Form(views) => Form([head] + views)
  }

  /**
   * The form fails to render exactly when it has an encoding field whose
   * rendering throws; otherwise every field is hidden iff it is absent
   * from the draft.
   */
  lemma {:induction false} FormFailsOnlyOnEncoding(fields: seq<string>, draft: Draft, encodings: Option<seq<string>>)
    ensures var r := RenderForm(fields, draft, encodings);
      && (r.FormFailed? <==> EncodingField in fields && EncodingFails(draft, encodings))
      && (r.Form? ==> forall i :: 0 <= i < |fields| ==> (r.views[i] == Hidden <==> fields[i] !in draft))
  {
    if EncodingField in fields && EncodingFails(draft, encodings) {
      var i :| 0 <= i < |fields| && fields[i] == EncodingField;
      assert RenderField(fields[i], draft, encodings) == Failed;
    }
  }

  /**
   * Refresh pressed before the encodings arrive: once the read returns an
   * `Encoding` value, the render of the collector's form throws.
   */
  lemma RefreshBeforeEncodingsFails(fields: seq<string>, draft: Draft, data: Draft)
    requires EncodingField in fields && EncodingField in data
    ensures RenderForm(fields, Merge(draft, data), None) == FormFailed
  {
    FormFailsOnlyOnEncoding(fields, Merge(draft, data), None);
  }

  class ConfigForm {
    /** The field names of the module variant, fixed for the session. */
    const fields: seq<string>
    var draft: Draft
    /** `this.encodings`: undefined until the encodings response arrives. */
    var encodings: Option<seq<string>>
    /** Every remote call issued, in order. */
    var requests: seq<Remote.Request>

    constructor (fields: seq<string>)
      ensures this.fields == fields
      ensures draft == InitialDraft && encodings == None && requests == []
    {
      this.fields := fields;
      draft := InitialDraft;
      encodings := None;
      requests := [];
    }

    /** `getConfig` (also the Refresh button): issue one read. */
    method GetConfig()
      modifies this
      ensures requests == old(requests) + [Remote.GetConfig]
      ensures draft == old(draft) && encodings == old(encodings)
    {
      requests := requests + [Remote.GetConfig];
    }

    /** The `getConfig` response: returned keys overwrite the draft, other keys survive. */
    method OnConfig(data: Draft)
      modifies this
      ensures draft == Merge(old(draft), data)
      ensures requests == old(requests) && encodings == old(encodings)
    {
      draft := draft + data;
    }

    /** `setConfig` (the Apply button): send the whole current draft. */
    method SetConfig()
      modifies this
      ensures requests == old(requests) + [Remote.SaveConfig(old(draft))]
      ensures draft == old(draft) && encodings == old(encodings)
    {
      requests := requests + [Remote.SaveConfig(draft)];
    }

    /** Completion of `saveConfig`: whatever it answered, issue exactly one read. */
    method OnSaved()
      modifies this
      ensures requests == old(requests) + [Remote.GetConfig]
      ensures draft == old(draft) && encodings == old(encodings)
    {
      GetConfig();
    }

    /** `reloadConfig` (the Reload button): ask the module to reload its own configuration. */
    method ReloadConfig()
      modifies this
      ensures requests == old(requests) + [Remote.ReloadConfig]
      ensures draft == old(draft) && encodings == old(encodings)
    {
      requests := requests + [Remote.ReloadConfig];
    }

    /** Completion of `reloadConfig`: issue exactly one read. */
    method OnReloaded()
      modifies this
      ensures requests == old(requests) + [Remote.GetConfig]
      ensures draft == old(draft) && encodings == old(encodings)
    {
      GetConfig();
    }

    /** `componentDidMount`: fetch the encodings first only when the form has an encoding field. */
    method Mount()
      modifies this
      ensures requests == old(requests) +
                (if EncodingField in fields then [Remote.GetEncodings] else [Remote.GetConfig])
      ensures draft == old(draft) && encodings == old(encodings)
    {
      if EncodingField !in fields {
        GetConfig();
      } else {
        requests := requests + [Remote.GetEncodings];
      }
    }

    /** The `getEncodings` response: cache the sorted list, then issue one read. */
    method OnEncodings(data: seq<string>)
      modifies this
      ensures encodings == Some(Sort(data))
      ensures Sorted(encodings.value) && multiset(encodings.value) == multiset(data)
      ensures requests == old(requests) + [Remote.GetConfig]
      ensures draft == old(draft)
    {
      encodings := Some(Sort(data));
      GetConfig();
    }

    /** A checkbox's change event: only the edited key changes. */
    method CheckboxChanged(id: string, checked: bool)
      modifies this
      ensures draft == old(draft)[id := Remote.Bool(checked)]
      ensures requests == old(requests) && encodings == old(encodings)
    {
      draft := draft[id := Remote.Bool(checked)];
    }

    /** A text box's change event: only the edited key changes. */
    method TextChanged(id: string, value: string)
      modifies this
      ensures draft == old(draft)[id := Remote.Text(value)]
      ensures requests == old(requests) && encodings == old(encodings)
    {
      draft := draft[id := Remote.Text(value)];
    }

    /** Choosing encoding `enc` in the select stores its upper-cased form. */
    method EncodingChosen(enc: string)
      modifies this
      ensures draft == old(draft)[EncodingField := Remote.Text(Upper(enc))]
      ensures requests == old(requests) && encodings == old(encodings)
    {
      draft := draft[EncodingField := Remote.Text(Upper(enc))];
    }

    /** `render`: one view per configured field, or nothing when a field's rendering throws. */
    function Render(): (r: FormView)
      reads this
      ensures r.FormFailed? <==> EncodingField in fields && EncodingFails(draft, encodings)
      ensures r.Form? ==> |r.views| == |fields|
      ensures r.Form? ==> forall i :: 0 <= i < |fields| ==> (r.views[i] == Hidden <==> fields[i] !in draft)
    {
      FormFailsOnlyOnEncoding(fields, draft, encodings);
      RenderForm(fields, draft, encodings)
    }
  }

  /** A read that returns the same descriptor twice leaves the draft as the first read left it. */
  lemma ReadIdempotent(draft: Draft, data: Draft)
    ensures Merge(Merge(draft, data), data) == Merge(draft, data)
  {
  }

  /** A read wins over any local edit of a key it returns. */
  lemma ReadWinsOverEdit(draft: Draft, data: Draft, id: string, v: Remote.Value)
    requires id in data
    ensures Merge(draft[id := v], data) == Merge(draft, data)
  {
  }

  /** An edit changes the rendering of the edited field only. */
  lemma EditIsLocal(draft: Draft, encodings: Option<seq<string>>, id: string, v: Remote.Value, other: string)
    requires other != id
    ensures RenderField(other, draft[id := v], encodings) == RenderField(other, draft, encodings)
  {
  }

  /** An edit to a key that is not a form field leaves the rendered form unchanged. */
  lemma EditOutsideFieldsInvisible(fields: seq<string>, draft: Draft, encodings: Option<seq<string>>,
                                   id: string, v: Remote.Value)
    requires id !in fields
    ensures RenderForm(fields, draft[id := v], encodings) == RenderForm(fields, draft, encodings)
  {
    var before, after := RenderForm(fields, draft, encodings), RenderForm(fields, draft[id := v], encodings);
    forall i | 0 <= i < |fields|
      ensures RenderField(fields[i], draft[id := v], encodings) == RenderField(fields[i], draft, encodings)
    {
      EditIsLocal(draft, encodings, id, v, fields[i]);
    }
    if after.Form? && before.Form? {
      assert after.views == before.views;
    }
  }

  /**
   * Round trip of the encoding select: after choosing `enc`, the options
   * shown selected are exactly those with the same upper-case form as `enc`.
   */
  lemma ChosenEncodingSelected(draft: Draft, encodings: seq<string>, enc: string)
    ensures var v := RenderField(EncodingField, draft[EncodingField := Remote.Text(Upper(enc))], Some(encodings));
      && v.Shown? && v.control.Select?
      && forall i :: 0 <= i < |encodings| ==>
           (v.control.options[i].selected <==> Upper(encodings[i]) == Upper(enc))
  {
    UpperIdempotent(enc);
  }

  /** Toggling a checkbox shows the new state. */
  lemma CheckboxRoundTrip(draft: Draft, encodings: Option<seq<string>>, id: string, checked: bool)
    requires id != EncodingField
    ensures RenderField(id, draft[id := Remote.Bool(checked)], encodings) == Shown(Checkbox(checked))
  {
  }
}
