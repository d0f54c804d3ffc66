/** Directory trees as walks see them: entries in walk order, relative paths, filters and omissions. */
module Trees {

  /** Directory entries in the order a walk visits them; what an entry can be differs between walks. */
  datatype Forest<+N> = Nil | Cons(name: string, node: N, rest: Forest<N>)

  type Filter = string -> bool

  function Child(prefix: string, name: string): string {
    if prefix == "" then name else prefix + "/" + name
  }

  datatype Omission<+R> = Omission(path: string, reason: R)
}
