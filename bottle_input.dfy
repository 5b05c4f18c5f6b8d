/** The bottle details form: three free-text qualitative fields, edited one key
    at a time and submitted as they stand. */
module BottleInput {

  /** The qualitative record sent with an inspection. Every field is free text. */
  datatype BottleQualitative = BottleQualitative(condition: string, seal: string, fill_level: string)

  /** The keys the form renders a text input for. */
  datatype Key = Condition | Seal | FillLevel

  /** The inputs in the order the form renders them. */
  const Keys: seq<Key> := [Condition, Seal, FillLevel]

  /** The form's initial value: every field empty. */
  const Empty: BottleQualitative := BottleQualitative("", "", "")

  /** The property name each key stands for in the submitted object. */
  function KeyName(k: Key): string
  {
    match k
    case Condition => "condition"
    case Seal => "seal"
    case FillLevel => "fill_level"
  }

  function Get(q: BottleQualitative, k: Key): string
  {
    match k
    case Condition => q.condition
    case Seal => q.seal
    case FillLevel => q.fill_level
  }

  /** `{ ...form, [key]: v }`: the record with one key replaced. */
  function With(q: BottleQualitative, k: Key, v: string): (r: BottleQualitative)
    ensures Get(r, k) == v
    ensures forall k' :: k' != k ==> Get(r, k') == Get(q, k')
  {
    match k
    case Condition => q.(condition := v)
    case Seal => q.(seal := v)
    case FillLevel => q.(fill_level := v)
  }

  /** The keys are exactly the record's three fields, each named once. */
  lemma KeysAreTheFields()
    ensures forall k: Key :: k in Keys
    ensures |Keys| == 3
    ensures KeyName(Keys[0]) == "condition" && KeyName(Keys[1]) == "seal" && KeyName(Keys[2]) == "fill_level"
    ensures forall i, j :: 0 <= i < j < |Keys| ==> KeyName(Keys[i]) != KeyName(Keys[j])
  {
    forall k: Key ensures k in Keys {
      match k
      case Condition => assert Keys[0] == k;
      case Seal => assert Keys[1] == k;
      case FillLevel => assert Keys[2] == k;
    }
  }

  /** Two edits of the same key: the last one wins. */
  lemma EditOverwrites(q: BottleQualitative, k: Key, v: string, w: string)
    ensures With(With(q, k, v), k, w) == With(q, k, w)
  {
  }

  /** Edits of different keys do not interfere, whatever their order. */
  lemma EditsCommute(q: BottleQualitative, k: Key, v: string, k': Key, v': string)
    requires k != k'
    ensures With(With(q, k, v), k', v') == With(With(q, k', v'), k, v)
  {
  }

  /** Typing `q`'s value into each input of `ks` in turn, starting from `q0`. */
  function Fill(q0: BottleQualitative, q: BottleQualitative, ks: seq<Key>): BottleQualitative
    decreases |ks|
  {
    if ks == [] then q0 else Fill(With(q0, ks[0], Get(q, ks[0])), q, ks[1..])
  }

  /** After typing into the inputs of `ks`, each of those keys holds `q`'s value
      and every other key keeps its value from `q0`. */
  lemma {:induction false} FillGet(q0: BottleQualitative, q: BottleQualitative, ks: seq<Key>, k: Key)
    ensures k in ks ==> Get(Fill(q0, q, ks), k) == Get(q, k)
    ensures k !in ks ==> Get(Fill(q0, q, ks), k) == Get(q0, k)
    decreases |ks|
  {
    if ks != [] {
      assert ks == [ks[0]] + ks[1..];
      FillGet(With(q0, ks[0], Get(q, ks[0])), q, ks[1..], k);
    }
  }

  /** Any record, empty fields included, can be typed into the freshly mounted
      form by filling its inputs in the order they are rendered. */
  lemma EveryRecordIsEnterable(q: BottleQualitative)
    ensures Fill(Empty, q, Keys) == q
  {
    KeysAreTheFields();
    var r := Fill(Empty, q, Keys);
    FillGet(Empty, q, Keys, Condition);
    FillGet(Empty, q, Keys, Seal);
    FillGet(Empty, q, Keys, FillLevel);
    assert r.condition == q.condition && r.seal == q.seal && r.fill_level == q.fill_level;
  }

  /** The `BottleForm` component: its one state cell is `form`. */
  class BottleForm {
    var form: BottleQualitative

    constructor ()
      ensures form == Empty
    {
      form := Empty;
    }

    /** The `onChangeText` of the input for key `k`. */
    method Edit(k: Key, v: string)
      modifies this
      ensures form == With(old(form), k, v)
      ensures Get(form, k) == v
      ensures forall k' :: k' != k ==> Get(form, k') == Get(old(form), k')
    {
      form := With(form, k, v);
    }

    /** The submit button: always enabled, no validation, hands over the form as it stands. */
    method Submit() returns (submitted: BottleQualitative)
      ensures submitted == form
      ensures forall k :: Get(submitted, k) == Get(form, k)
    {
      submitted := form;
    }
  }
}
