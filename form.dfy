/** Form submission, src/utils/validation/form.ts: validate every field and
    collect the values by field name. */
module Forms {
  import opened Wrappers
  import opened Validation

  /** A text input as a form reads it: its `name`, the current value of its
      input element, and its optional rule. */
  datatype TextField = TextField(name: string, value: string, rule: Option<Rule>)

  /** `TextInput.validate()`: a field without a rule is always valid. */
  predicate FieldValid(field: TextField)
  {
    field.rule.None? || Validate(field.rule.value, field.value)
  }

  /** Field `i` is the last one with its name. */
  predicate LastNamed(fields: seq<TextField>, i: int)
  {
    LastNamedBefore(fields, i, |fields|)
  }

  /** Field `i` is the last one with its name among the first `n`. */
  predicate LastNamedBefore(fields: seq<TextField>, i: int, n: int)
  {
    0 <= i < n <= |fields| && forall j :: i < j < n ==> fields[j].name != fields[i].name
  }

  /** Some field among the first `n` is named `k`. */
  ghost predicate NamedBefore(fields: seq<TextField>, k: string, n: int)
  {
    exists i :: 0 <= i < n && i < |fields| && fields[i].name == k
  }

  /** The keys of `data` are the names of the first `n` fields. */
  ghost predicate KeysBefore(fields: seq<TextField>, data: map<string, string>, n: int)
  {
    forall k :: k in data <==> NamedBefore(fields, k, n)
  }

  /** Each of those names holds the value of the last of the first `n`
      fields that carries it. */
  ghost predicate ValuesBefore(fields: seq<TextField>, data: map<string, string>, n: int)
  {
    forall i :: LastNamedBefore(fields, i, n) ==> fields[i].name in data && data[fields[i].name] == fields[i].value
  }

  /** Recording field `n` adds exactly its name to the keys. */
  lemma KeysStep(fields: seq<TextField>, data: map<string, string>, n: nat)
    requires n < |fields| && KeysBefore(fields, data, n)
    ensures KeysBefore(fields, data[fields[n].name := fields[n].value], n + 1)
  {
    var next := data[fields[n].name := fields[n].value];
    forall k
      ensures k in next <==> NamedBefore(fields, k, n + 1)
    {
      if k == fields[n].name {
        assert NamedBefore(fields, k, n + 1);
      } else if NamedBefore(fields, k, n + 1) {
        var i :| 0 <= i < n + 1 && i < |fields| && fields[i].name == k;
        assert NamedBefore(fields, k, n);
      }
    }
  }

  /** Recording field `n` makes it the holder of its name and leaves the
      other names alone. */
  lemma ValuesStep(fields: seq<TextField>, data: map<string, string>, n: nat)
    requires n < |fields| && ValuesBefore(fields, data, n)
    ensures ValuesBefore(fields, data[fields[n].name := fields[n].value], n + 1)
  {
    var next := data[fields[n].name := fields[n].value];
    forall i | LastNamedBefore(fields, i, n + 1)
      ensures fields[i].name in next && next[fields[i].name] == fields[i].value
    {
      if i < n {
        assert LastNamedBefore(fields, i, n);
      }
    }
  }

  /** `validateAndCollectData`: every field's `validate()` runs, in order,
      whatever the earlier ones said (`verdicts`); the form is valid when
      all of them are; `data` has exactly the fields' names as keys, each
      holding the value of the last field with that name. */
  method ValidateAndCollectData(fields: seq<TextField>) returns (isValid: bool, data: map<string, string>, verdicts: seq<bool>)
    ensures |verdicts| == |fields| && forall i :: 0 <= i < |fields| ==> verdicts[i] == FieldValid(fields[i])
    ensures isValid <==> forall i :: 0 <= i < |fields| ==> FieldValid(fields[i])
    ensures forall k :: k in data <==> exists i :: 0 <= i < |fields| && fields[i].name == k
    ensures forall i :: LastNamed(fields, i) ==> fields[i].name in data && data[fields[i].name] == fields[i].value
  {
    isValid := true;
    data := map[];
    verdicts := [];
    var n := 0;
    while n < |fields|
      invariant 0 <= n <= |fields|
      invariant |verdicts| == n && forall i :: 0 <= i < n ==> verdicts[i] == FieldValid(fields[i])
      invariant isValid <==> forall i :: 0 <= i < n ==> FieldValid(fields[i])
      invariant KeysBefore(fields, data, n) && ValuesBefore(fields, data, n)
    {
      var field := fields[n];
      var valid := FieldValid(field);
      verdicts := verdicts + [valid];
      if !valid {
        isValid := false;
      }
      KeysStep(fields, data, n);
      ValuesStep(fields, data, n);
      data := data[field.name := field.value];
      n := n + 1;
    }
  }
}
