/** The identifiers and result type shared by all modules. Addresses and hashes
    are only ever compared, so any countable set of names will do. */
module Types {
  type Address = nat

  type Hash = nat

  type Height = nat

  datatype Option<+T> = None | Some(value: T)

  datatype Result<+T, +E> = Ok(value: T) | Err(error: E)

  datatype ServiceType =
    | ModelInference
    | ToolExecution
    | ComputeUsage
    | Storage
    | AgentRuntime
    | Custom(name: string)
}
