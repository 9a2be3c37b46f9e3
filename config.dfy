/** The process environment variables the core reads. */
module Config {
  import opened Wrappers

  /** `process.env`: JWT_SECRET, NODE_ENV, EMAIL_USER and EMAIL_PASS. */
  datatype Env = Env(
    jwtSecret: Option<string>,
    nodeEnv: Option<string>,
    emailUser: Option<string>,
    emailPass: Option<string>)
}
