/** The form description a resource hands to the renderer and to the handlers
    (interfaces/forms.go). */
module Forms {
  import opened Wrappers

  datatype SelectOption = SelectOption(optionLabel: string, optionValue: string)

  /** What a field's configuration says about it: which component draws it, and how. */
  datatype FieldSpec =
    | TextField(fieldLabel: string, fieldName: string, placeholder: string, inputType: string, required: bool)
    | SelectField(fieldLabel: string, fieldName: string, placeholder: string, options: seq<SelectOption>, required: bool)

  /** `FormField[T]`: a named input, the value it shows for a row, and its validator,
      which answers "" for a valid raw value and a message otherwise. */
  datatype FormField<!T> = FormField(spec: FieldSpec, value: T -> string, validator: string -> string)
  {
    function Name(): string { spec.fieldName }
    function Label(): string { spec.fieldLabel }
  }

  /** `FormConfig[T]`: where a row is saved, and the fields in rendering and validation order. */
  datatype FormConfig<!T> = FormConfig(saveUrl: Option<T> -> string, fields: seq<FormField<T>>)

  /** The names of `fields`, in order. */
  function FieldNames<T>(fields: seq<FormField<T>>): (names: seq<string>)
    ensures |names| == |fields|
    ensures forall i :: 0 <= i < |fields| ==> names[i] == fields[i].Name()
  {
    seq(|fields|, i requires 0 <= i < |fields| => fields[i].Name())
  }
}
