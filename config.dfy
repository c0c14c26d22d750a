/** The two configuration numbers the core reads (`ConfigOpenrouter` in src/main.rs). */
module AppConfig {
  datatype Config = Config(windowThreshold: nat, maxAttempts: int)
}
