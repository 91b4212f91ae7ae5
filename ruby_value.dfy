/**
  Ruby objects, as far as the presenter and the controller touch them:
  `nil`, Integers, Symbols, Strings and Hashes. A Symbol and a String with
  the same characters are different objects and different Hash keys
  (`:tags` is not `"tags"`), so they are kept apart here.
*/
module RubyValue {

  datatype Value =
    | Nil
    | Number(n: int)
    | Sym(name: string)
    | Str(text: string)
    | Hash(entries: map<Value, Value>)

  /** `Hash#[]` on a Hash without a default: the entry at `key`, or `nil` on a miss. */
  function Fetch(h: map<Value, Value>, key: Value): Value
  {
    if key in h then h[key] else Nil
  }
}
