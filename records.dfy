/**
 * The records the program passes around are Python dicts from field name to
 * a string or `None`. A dict keeps its keys unique and in insertion order, so
 * a record is an ordered list of fields with distinct keys.
 */
module Records {
  import opened Optional

  datatype Value = Null | Str(s: string)

  datatype Field = Field(key: string, value: Value)

  type Record = seq<Field>

  predicate DistinctKeys(r: Record) {
    forall i, j :: 0 <= i < j < |r| ==> r[i].key != r[j].key
  }

  predicate HasKey(r: Record, k: string) {
    exists j :: 0 <= j < |r| && r[j].key == k
  }

  /** `record.get(k)`. */
  function Get(r: Record, k: string): (v: Option<Value>)
    ensures v.Some? <==> HasKey(r, k)
    ensures v.Some? ==> Field(k, v.value) in r
    decreases |r|
  {
    if r == [] then None
    else if r[0].key == k then Some(r[0].value)
    else
      var v := Get(r[1..], k);
      assert HasKey(r, k) ==> HasKey(r[1..], k) by {
        if HasKey(r, k) {
          var j :| 0 <= j < |r| && r[j].key == k;
          assert r[1..][j - 1].key == k;
        }
      }
      v
  }

  /** Python truthiness of a looked-up value: absent, `None` and `""` are false. */
  predicate Truthy(v: Option<Value>) {
    v.Some? && v.value.Str? && v.value.s != ""
  }

  /** In a dictionary each key is stored once, so looking up a field's key finds that field's value. */
  lemma {:induction false} GetDistinct(r: Record, j: int)
    requires DistinctKeys(r)
    requires 0 <= j < |r|
    ensures Get(r, r[j].key) == Some(r[j].value)
    decreases |r|
  {
    if j > 0 {
      var rest := r[1..];
      assert r[0].key != r[j].key;
      assert rest[j - 1] == r[j];
      assert DistinctKeys(rest) by {
        forall a, b | 0 <= a < b < |rest| ensures rest[a].key != rest[b].key {
          assert rest[a] == r[a + 1] && rest[b] == r[b + 1];
        }
      }
      GetDistinct(rest, j - 1);
    }
  }

  /** `record.get(k) or fallback`, for string values. */
  function GetOr(r: Record, k: string, fallback: string): (t: string)
    ensures Truthy(Get(r, k)) ==> Get(r, k) == Some(Str(t))
    ensures !Truthy(Get(r, k)) ==> t == fallback
  {
    var v := Get(r, k);
    if Truthy(v) then v.value.s else fallback
  }

  /** `"" if value is None else str(value)`: the text an element or a cell gets. */
  function TextOf(v: Value): string {
    match v
    case Null => ""
    case Str(s) => s
  }
}
