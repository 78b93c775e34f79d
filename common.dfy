/** JavaScript's `undefined` for a field that may be absent. */
module Common {

  datatype Option<+T> = None | Some(value: T)

  /** Property lookup on a plain object of string fields: `obj[key]`, undefined when absent. */
  function Get(fields: map<string, string>, key: string): (r: Option<string>)
    ensures r.Some? <==> key in fields
    ensures r.Some? ==> r.value == fields[key]
  {
    if key in fields then Some(fields[key]) else None
  }
}
