/** Nullable values. The Java entities use boxed `Integer`, `String` and
    object references that may be `null`; the model writes them as `Option`. */
module Opcao {

  datatype Option<+T> = None | Some(value: T)

  /** SQL equality against a bound parameter: `coluna = :parametro`. A `null`
      parameter matches no row, and a `null` column matches no parameter. */
  predicate CorrespondeA<T(==)>(coluna: Option<T>, parametro: Option<T>)
  {
    parametro.Some? && coluna == parametro
  }
}
