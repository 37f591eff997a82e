/**
 * A form-encoded request body after percent-decoding: its name/value pairs in
 * the order they were sent, and the `get` lookup of section 6.2 of the WHATWG
 * URL Standard (the value of the first pair with that name).
 */
module Form {
  import opened Wrappers
  import opened Seqs

  datatype Entry = Entry(name: string, value: string)

  type FormData = seq<Entry>

  /** Selects the pairs called `name`. */
  function HasName(name: string): Entry -> bool
  {
    (e: Entry) => e.name == name
  }

  /** `i` is the position of the first pair called `name`. */
  ghost predicate IsFirstNamed(form: FormData, name: string, i: int)
  {
    0 <= i < |form| && form[i].name == name && forall j :: 0 <= j < i ==> form[j].name != name
  }

  /** No pair is called `name`. */
  ghost predicate Absent(form: FormData, name: string)
  {
    forall j :: 0 <= j < |form| ==> form[j].name != name
  }

  /** `URLSearchParams.get(name)`: the first value for `name`, or none. */
  function Get(form: FormData, name: string): (r: Option<string>)
    ensures r.None? <==> Absent(form, name)
    ensures r.Some? ==> exists i :: IsFirstNamed(form, name, i) && r.value == form[i].value
    ensures forall i :: IsFirstNamed(form, name, i) ==> r == Some(form[i].value)
  {
    match Find(form, HasName(name))
    case None => None
    case Some(e) => Some(e.value)
  }

  /** Once `name` occurs, pairs appended after it do not change what `get` returns. */
  lemma {:induction false} GetIgnoresLaterPairs(form: FormData, extra: FormData, name: string)
    requires !Absent(form, name)
    ensures Get(form + extra, name) == Get(form, name)
  {
    var r := Get(form, name);
    assert r.Some?;
    var i :| IsFirstNamed(form, name, i) && r.value == form[i].value;
    assert IsFirstNamed(form + extra, name, i);
  }
}
