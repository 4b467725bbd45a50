/** The gateway's configuration: read once from the environment at startup and
    never changed afterwards (`Config`, src/main.rs:15-22). */
module GatewayConfig {

  datatype Config = Config(
    listenAddress: string,
    basePath: string,
    upstreamUrl: string,
    shutdownKey: string,
    shutdownUrl: string)
}
