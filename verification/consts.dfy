/** Reserved symbol names shared by the host layer and the guest ABI. */
module Consts {

  /** Import namespace under which host functions are registered. */
  const Namespace: string := "env"

  /** Entrypoint of a WASI command. */
  const StartFunctionName: string := "_start"

  /** Entrypoint of a WASI reactor. */
  const InitFunctionName: string := "_initialize"
}
