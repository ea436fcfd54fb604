/** The park-creation form: the payload of src/components/Modals/
    CreateParqueDialog.tsx, its validation (the first blank field decides
    the message), and the dialog's own state: the four fields and the
    form error. */
module ParkForm {
  import opened Base
  import opened Text

  /** `ParqueCreate` */
  datatype ParqueCreate = ParqueCreate(nome: string, localizacao: string, endereco: string, imagem: string)

  const NomeMissing := "Informe o nome do parque."
  const LocalizacaoMissing := "Informe a localização (ex.: Teresópolis - RJ)."
  const EnderecoMissing := "Informe o endereço."
  /** The dialog's message for a missing image URL. */
  const DialogImagemMissing := "Informe a URL da imagem."
  /** The profile screen's message for a missing image URL. */
  const ScreenImagemMissing := "Informe a URL da imagem (pode ser http://...)."

  /** `!s.trim()`, stated as "every character is whitespace". */
  predicate Blank(s: string) {
    forall i :: 0 <= i < |s| ==> IsSpace(s[i])
  }

  /** Blank is exactly "trims to the empty string", and trimming does not
      change it. */
  lemma BlankIsEmptyTrim(s: string)
    ensures Blank(s) <==> Trim(s) == ""
    ensures Blank(Trim(s)) <==> Blank(s)
  {
    BlankIffAllSpace(s);
    BlankIffAllSpace(Trim(s));
    TrimIdempotent(s);
  }

  /** The fields in the order they are checked. */
  function FieldsOf(p: ParqueCreate): seq<string> {
    [p.nome, p.localizacao, p.endereco, p.imagem]
  }

  function Messages(imagemMissing: string): seq<string> {
    [NomeMissing, LocalizacaoMissing, EnderecoMissing, imagemMissing]
  }

  /** The index of the first blank field, if any. */
  function FirstBlank(fields: seq<string>): (r: Option<nat>)
    ensures r.Some? ==> r.value < |fields| && Blank(fields[r.value])
    ensures r.Some? ==> forall j :: 0 <= j < r.value ==> !Blank(fields[j])
    ensures r.None? ==> forall j :: 0 <= j < |fields| ==> !Blank(fields[j])
  {
    if fields == [] then None
    else if Blank(fields[0]) then Some(0)
    else
      var rest := FirstBlank(fields[1..]);
      if rest.Some? then Some(rest.value + 1) else None
  }

  /** `validate` (and the profile screen's `validateParque`, which differs
      only in `imagemMissing`): null when no field is blank, otherwise the
      message of the first blank field in the order nome, localizacao,
      endereco, imagem. */
  function Validate(p: ParqueCreate, imagemMissing: string): Option<string> {
    if Blank(p.nome) then Some(NomeMissing)
    else if Blank(p.localizacao) then Some(LocalizacaoMissing)
    else if Blank(p.endereco) then Some(EnderecoMissing)
    else if Blank(p.imagem) then Some(imagemMissing)
    else None
  }

  /** The checks of `Validate` are the scan `FirstBlank` over the fields
      in form order: it fails with the message of the first blank field. */
  lemma ValidateIsFirstBlank(p: ParqueCreate, imagemMissing: string)
    ensures var first := FirstBlank(FieldsOf(p));
            Validate(p, imagemMissing) == if first.Some? then Some(Messages(imagemMissing)[first.value]) else None
  {
    var fields := FieldsOf(p);
    var f1, f2, f3 := fields[1..], fields[1..][1..], fields[1..][1..][1..];
    assert f1 == [p.localizacao, p.endereco, p.imagem] && f2 == [p.endereco, p.imagem] && f3 == [p.imagem];
    if Blank(p.nome) {
    } else if Blank(p.localizacao) {
      assert FirstBlank(f1) == Some(0);
    } else if Blank(p.endereco) {
      assert FirstBlank(f2) == Some(0);
      assert FirstBlank(f1) == Some(1);
    } else if Blank(p.imagem) {
      assert FirstBlank(f3) == Some(0);
      assert FirstBlank(f2) == Some(1);
      assert FirstBlank(f1) == Some(2);
    } else {
      assert f3[1..] == [];
      assert FirstBlank(f3) == None;
      assert FirstBlank(f2) == None;
      assert FirstBlank(f1) == None;
    }
  }

  /** The payload `submit` builds: every field trimmed. */
  function TrimAll(p: ParqueCreate): ParqueCreate {
    ParqueCreate(Trim(p.nome), Trim(p.localizacao), Trim(p.endereco), Trim(p.imagem))
  }

  /** Trimming first does not change the verdict, and a trimmed payload
      is its own trim. */
  lemma TrimAllValidate(p: ParqueCreate, imagemMissing: string)
    ensures Validate(TrimAll(p), imagemMissing) == Validate(p, imagemMissing)
    ensures TrimAll(TrimAll(p)) == TrimAll(p)
  {
    var q := TrimAll(p);
    assert Blank(q.nome) == Blank(p.nome) by { BlankIsEmptyTrim(p.nome); }
    assert Blank(q.localizacao) == Blank(p.localizacao) by { BlankIsEmptyTrim(p.localizacao); }
    assert Blank(q.endereco) == Blank(p.endereco) by { BlankIsEmptyTrim(p.endereco); }
    assert Blank(q.imagem) == Blank(p.imagem) by { BlankIsEmptyTrim(p.imagem); }
    assert TrimAll(q) == q by {
      TrimIdempotent(p.nome);
      TrimIdempotent(p.localizacao);
      TrimIdempotent(p.endereco);
      TrimIdempotent(p.imagem);
    }
  }

  /** The four text inputs. */
  datatype FieldName = Nome | Localizacao | Endereco | Imagem

  class CreateParqueDialog {
    var nome: string
    var localizacao: string
    var endereco: string
    var imagem: string
    var formErr: Option<string>

    function Fields(): ParqueCreate
      reads this
    {
      ParqueCreate(nome, localizacao, endereco, imagem)
    }

    constructor ()
      ensures Fields() == ParqueCreate("", "", "", "") && formErr == None
    {
      nome, localizacao, endereco, imagem := "", "", "", "";
      formErr := None;
    }

    /** The effect on `visible` / `defaultValue`: the fields take the
        default value's (or empty) and the error is cleared. */
    method Reset(defaultValue: Option<ParqueCreate>)
      modifies this
      ensures defaultValue.Some? ==> Fields() == defaultValue.value
      ensures defaultValue.None? ==> Fields() == ParqueCreate("", "", "", "")
      ensures formErr == None
    {
      if defaultValue.Some? {
        var d := defaultValue.value;
        nome, localizacao, endereco, imagem := d.nome, d.localizacao, d.endereco, d.imagem;
      } else {
        nome, localizacao, endereco, imagem := "", "", "", "";
      }
      formErr := None;
    }

    /** An input's `onChangeText`: the field takes the text and the form
        error is cleared. */
    method Edit(field: FieldName, v: string)
      modifies this
      ensures formErr == None
      ensures Fields() == match field
        case Nome => old(Fields()).(nome := v)
        case Localizacao => old(Fields()).(localizacao := v)
        case Endereco => old(Fields()).(endereco := v)
        case Imagem => old(Fields()).(imagem := v)
    {
      match field {
        case Nome => nome := v;
        case Localizacao => localizacao := v;
        case Endereco => endereco := v;
        case Imagem => imagem := v;
      }
      formErr := None;
    }

    /** `submit`: the trimmed payload is handed to `onSubmit` when it
        validates; otherwise nothing is submitted and the error is shown.
        The fields themselves are left as typed. */
    method Submit() returns (submitted: Option<ParqueCreate>)
      modifies this`formErr
      ensures Fields() == old(Fields())
      ensures Validate(TrimAll(Fields()), DialogImagemMissing).None? ==>
        submitted == Some(TrimAll(Fields())) && formErr == old(formErr)
      ensures Validate(TrimAll(Fields()), DialogImagemMissing).Some? ==>
        submitted == None && formErr == Validate(TrimAll(Fields()), DialogImagemMissing)
    {
      var payload := TrimAll(Fields());
      var err := Validate(payload, DialogImagemMissing);
      if err.Some? {
        formErr := err;
        submitted := None;
      } else {
        submitted := Some(payload);
      }
    }
  }

  /** Whatever the dialog submits has no blank and no padded field. */
  lemma SubmittedIsClean(p: ParqueCreate)
    requires Validate(TrimAll(p), DialogImagemMissing).None?
    ensures var q := TrimAll(p);
            !Blank(q.nome) && !Blank(q.localizacao) && !Blank(q.endereco) && !Blank(q.imagem)
    ensures TrimAll(TrimAll(p)) == TrimAll(p)
  {
    TrimAllValidate(p, DialogImagemMissing);
  }
}
