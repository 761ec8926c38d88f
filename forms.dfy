/**
 * `ClaudeQueryForm`: a Django form with six declared fields to which numbered
 * free-text parameter fields `param_0`, `param_1`, ... can be added one at a
 * time. Only the field declarations matter here; Django's widgets, validation
 * and rendering are reduced to the kind of field and whether it is required.
 */
module Forms {
  import opened Text

  datatype Widget = TextInput | Textarea

  /** The declaration of one form field. `CharField` renders with `TextInput` unless told otherwise. */
  datatype FormField =
    | CharField(required: bool, widget: Widget)
    | FileField(required: bool)
    | BooleanField(required: bool)

  /** The fields the class declares, none of them required. */
  function DeclaredFields(): (fields: map<string, FormField>)
    ensures forall name :: name in fields ==> !fields[name].required
  {
    map[
      "query" := CharField(false, Textarea),
      "template" := FileField(false),
      "json_output" := BooleanField(false),
      "pdf_file" := FileField(false),
      "pdf_range" := CharField(false, TextInput),
      "estimate_cost" := BooleanField(false)
    ]
  }

  /** The field every `add_param_field` call declares. */
  const ParamField: FormField := CharField(false, TextInput)

  const ParamPrefix: string := "param_"

  /** `f'param_{n}'`. */
  function ParamName(n: nat): string {
    ParamPrefix + NatToString(n)
  }

  /** `param_0`, ..., `param_{k-1}`. */
  function ParamNames(k: nat): (names: seq<string>)
    ensures |names| == k
  {
    if k == 0 then [] else ParamNames(k - 1) + [ParamName(k - 1)]
  }

  lemma {:induction false} ParamNamesAt(k: nat, i: nat)
    requires i < k
    ensures ParamNames(k)[i] == ParamName(i)
  {
    if i < k - 1 {
      ParamNamesAt(k - 1, i);
    }
  }

  /** Different counts give different names. */
  lemma ParamNameInjective(m: nat, n: nat)
    requires m != n
    ensures ParamName(m) != ParamName(n)
  {
    NatToStringInjective(m, n);
    assert ParamName(m)[|ParamPrefix|..] == NatToString(m);
    assert ParamName(n)[|ParamPrefix|..] == NatToString(n);
  }

  /** The names `add_param_field` generates never shadow a declared field. */
  lemma ParamNameNotDeclared(n: nat)
    ensures ParamName(n) !in DeclaredFields()
  {
    var s := ParamName(n);
    assert s[..|ParamPrefix|] == ParamPrefix;
    assert s[5] == '_';
    assert s[0] == 'p';
  }

  /** The parameter names of a form are pairwise distinct. */
  lemma ParamNamesDistinct(k: nat)
    ensures forall i, j :: 0 <= i < j < k ==> ParamNames(k)[i] != ParamNames(k)[j]
  {
    forall i, j | 0 <= i < j < k
      ensures ParamNames(k)[i] != ParamNames(k)[j]
    {
      ParamNamesAt(k, i);
      ParamNamesAt(k, j);
      ParamNameInjective(i, j);
    }
  }

  /**
   * A form after some number of `add_param_field` calls: the parameter names
   * are `param_0` onwards, each declared as a plain optional text field, and
   * the declared fields are there unchanged.
   */
  predicate Consistent(fields: map<string, FormField>, paramFields: seq<string>) {
    && paramFields == ParamNames(|paramFields|)
    && fields == DeclaredFields() + map name | name in paramFields :: ParamField
  }

  /** A new form holds only the declared fields and no parameters. */
  lemma FreshFormConsistent()
    ensures Consistent(DeclaredFields(), [])
  {
    var none: seq<string> := [];
    assert (map name | name in none :: ParamField) == map[];
  }

  /** One `add_param_field` step keeps a form consistent. */
  lemma {:induction false} AddParamKeepsConsistent(fields: map<string, FormField>, paramFields: seq<string>)
    requires Consistent(fields, paramFields)
    ensures Consistent(fields[ParamName(|paramFields|) := ParamField], paramFields + [ParamName(|paramFields|)])
  {
    var name := ParamName(|paramFields|);
    var ps := paramFields + [name];
    ParamNameNotDeclared(|paramFields|);
    assert (map n | n in ps :: ParamField) == (map n | n in paramFields :: ParamField)[name := ParamField];
  }

  /**
   * In a consistent form with `k` parameters every parameter field is a plain
   * optional text field, the declared fields are untouched, and the fields are
   * exactly the declared ones and the parameters.
   */
  lemma ConsistentFields(fields: map<string, FormField>, paramFields: seq<string>)
    requires Consistent(fields, paramFields)
    ensures forall i :: 0 <= i < |paramFields| ==> paramFields[i] == ParamName(i) && fields[paramFields[i]] == ParamField
    ensures forall i, j :: 0 <= i < j < |paramFields| ==> paramFields[i] != paramFields[j]
    ensures forall name :: name in DeclaredFields() ==> name in fields && fields[name] == DeclaredFields()[name]
    ensures fields.Keys == DeclaredFields().Keys + set name | name in paramFields
  {
    var k := |paramFields|;
    forall i | 0 <= i < k
      ensures paramFields[i] == ParamName(i)
    {
      ParamNamesAt(k, i);
    }
    ParamNamesDistinct(k);
    forall name | name in DeclaredFields()
      ensures name !in paramFields
    {
      if name in paramFields {
        var i :| 0 <= i < k && paramFields[i] == name;
        ParamNameNotDeclared(i);
      }
    }
  }

  /** The form object: its field table and the names of the parameter fields added so far. */
  class ClaudeQueryForm {
    var fields: map<string, FormField>
    var paramFields: seq<string>

    ghost predicate Valid()
      reads this
    {
      Consistent(fields, paramFields)
    }

    /** `__init__`: Django copies the declared fields, then `param_fields` starts empty. */
    constructor ()
      ensures fields == DeclaredFields()
      ensures paramFields == []
      ensures Valid()
    {
      fields := DeclaredFields();
      paramFields := [];
      FreshFormConsistent();
    }

    /** `add_param_field`: declares `param_<n>` for the current count `n` and records its name. */
    method AddParamField()
      modifies this
      ensures fields == old(fields)[ParamName(|old(paramFields)|) := ParamField]
      ensures paramFields == old(paramFields) + [ParamName(|old(paramFields)|)]
      ensures old(Valid()) ==> Valid()
    {
      var fieldName := ParamPrefix + NatToString(|paramFields|);
      if Valid() {
        AddParamKeepsConsistent(fields, paramFields);
      }
      fields := fields[fieldName := ParamField];
      paramFields := paramFields + [fieldName];
    }
  }
}
