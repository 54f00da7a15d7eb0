/** `mapStateId`: the region code carried by a map element's id, which must match
    the regular expression `^([A-Z]{2})-?$` (chart.js:185-188). */
module StateId {
  import opened Wrappers

  predicate IsCapital(c: char) {
    'A' <= c <= 'Z'
  }

  /** A two-letter region code such as "CA". */
  predicate IsCode(s: string) {
    |s| == 2 && IsCapital(s[0]) && IsCapital(s[1])
  }

  /** The code for ids of the form `XX` or `XX-`, and `None` (undefined) for every other id. */
  function MapStateId(id: string): (r: Option<string>)
    ensures r.Some? ==> IsCode(r.value) && (id == r.value || id == r.value + "-")
  {
    if (|id| == 2 || (|id| == 3 && id[2] == '-')) && IsCapital(id[0]) && IsCapital(id[1]) then
      Some(id[..2])
    else
      None
  }

  /** The converse: every id of the two accepted forms yields its code. */
  lemma MapStateIdAccepts(code: string)
    requires IsCode(code)
    ensures MapStateId(code) == Some(code)
    ensures MapStateId(code + "-") == Some(code)
  {
    assert (code + "-")[..2] == code;
  }

  /** Hence an id is accepted exactly when it is a code, optionally followed by '-'. */
  lemma MapStateIdExact(id: string)
    ensures MapStateId(id).Some? <==> IsCode(id) || (|id| == 3 && IsCode(id[..2]) && id[2] == '-')
  {
    if |id| == 3 && IsCode(id[..2]) && id[2] == '-' {
      assert id == id[..2] + "-";
      MapStateIdAccepts(id[..2]);
    } else if IsCode(id) {
      MapStateIdAccepts(id);
    }
  }
}
