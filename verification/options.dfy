/** Optional values: `None` stands for a C# `null` reference (or, for a
    proportion, for `double.NaN`, "unconstrained"). */
module Options {

  datatype Option<+T> = None | Some(value: T)
}
