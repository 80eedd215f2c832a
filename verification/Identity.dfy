/** Who a pairing established. */
module Identity {
  type Binding = map<string, string>

  /** PrincipalGrant: who approved, and the binding their calls carry. The
      empty name is the anonymous operator; an absent binding is the empty
      one. */
  datatype Grant = Grant(name: string, binding: Binding)

  const OPERATOR := Grant("", map[])
}
