/** `useEnumOptions`: the select options for the Season and Category enums,
    each value paired with its display label (`label`, here `labelText`,
    since `label` is a Dafny keyword). */
module EnumLabels {
  import opened Js

  datatype EnumType = Season | Category

  datatype EnumOption = EnumOption(value: string, labelText: string)

  /** The `enumLabels` tables. */
  function Labels(t: EnumType): map<string, string>
  {
    match t
    case Season => map["S1" := "S1", "S2" := "S2"]
    case Category => map["QUA" := "资格赛QUA", "RO16" := "RO16", "QF" := "四分之一决赛QF",
                         "SF" := "半决赛SF", "F" := "决赛F", "GF" := "总决赛GF"]
  }

  /** `labels[value] || value`: the table's label when it has a non-empty
      one, otherwise the value itself. */
  function LabelOf(t: EnumType, value: string): (text: string)
    ensures value in Labels(t) && Labels(t)[value] != "" ==> text == Labels(t)[value]
    ensures value !in Labels(t) || Labels(t)[value] == "" ==> text == value
  {
    if value in Labels(t) && Labels(t)[value] != "" then Labels(t)[value] else value
  }

  /** `enumValues.map(value => ({value, label}))`: one option per value, in
      order, carrying that value and its label. */
  function EnumOptions(t: EnumType, values: seq<string>): (r: seq<EnumOption>)
    ensures |r| == |values|
    ensures forall i :: 0 <= i < |r| ==> r[i] == EnumOption(values[i], LabelOf(t, values[i]))
  {
    seq(|values|, i requires 0 <= i < |values| => EnumOption(values[i], LabelOf(t, values[i])))
  }

  function Values(options: seq<EnumOption>): (r: seq<string>)
    ensures |r| == |options| && forall i :: 0 <= i < |r| ==> r[i] == options[i].value
  {
    seq(|options|, i requires 0 <= i < |options| => options[i].value)
  }

  /** The options give back exactly the values they were built from. */
  lemma OptionsKeepValues(t: EnumType, values: seq<string>)
    ensures Values(EnumOptions(t, values)) == values
  {
  }

  /** Labelling is element-wise, so it distributes over concatenation. */
  lemma OptionsOfConcat(t: EnumType, a: seq<string>, b: seq<string>)
    ensures EnumOptions(t, a + b) == EnumOptions(t, a) + EnumOptions(t, b)
  {
  }

  /** Every label is non-empty when the value is. */
  lemma LabelsNonEmpty(t: EnumType, values: seq<string>, i: int)
    requires 0 <= i < |values| && values[i] != ""
    ensures EnumOptions(t, values)[i].labelText != ""
  {
  }

  /** The members of the two Prisma enums, in declaration order. */
  const SeasonValues: seq<string> := ["S1", "S2"]
  const CategoryValues: seq<string> := ["QUA", "RO16", "QF", "SF", "F", "GF"]

  /** `useSeasonOptions()`. */
  function SeasonOptions(): seq<EnumOption>
  {
    EnumOptions(Season, SeasonValues)
  }

  /** `useCategoryOptions()`. */
  function CategoryOptions(): seq<EnumOption>
  {
    EnumOptions(Category, CategoryValues)
  }

  /** Every enum member has its own table label. */
  lemma SeasonAndCategoryOptions()
    ensures SeasonOptions() == [EnumOption("S1", "S1"), EnumOption("S2", "S2")]
    ensures CategoryOptions() ==
      [EnumOption("QUA", "资格赛QUA"), EnumOption("RO16", "RO16"), EnumOption("QF", "四分之一决赛QF"),
       EnumOption("SF", "半决赛SF"), EnumOption("F", "决赛F"), EnumOption("GF", "总决赛GF")]
  {
  }

  /** A value the table does not know is shown as itself. */
  lemma UnknownValueLabelsItself(t: EnumType, value: string)
    requires value !in Labels(t)
    ensures EnumOptions(t, [value]) == [EnumOption(value, value)]
  {
  }
}
