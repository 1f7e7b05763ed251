/** The application settings the core reads, with their shipped defaults. */
module Config {

  datatype Settings = Settings(
    downloadPath: string,
    redisTls: int,
    brokerHost: string,
    backendHost: string,
    brokerUser: string,
    backendUser: string,
    brokerPassword: string,
    backendPassword: string,
    brokerPort: int,
    backendPort: int,
    brokerDb: int,
    backendDb: int,
    retryMax: int,
    retryDelay: int,
    defaultProxy: string)

  const Defaults: Settings := Settings(
    downloadPath := "download",
    redisTls := 0,
    brokerHost := "celery-redis",
    backendHost := "celery-redis",
    brokerUser := "",
    backendUser := "",
    brokerPassword := "pass123",
    backendPassword := "pass123",
    brokerPort := 6379,
    backendPort := 6379,
    brokerDb := 0,
    backendDb := 1,
    retryMax := 5,
    retryDelay := 10,
    defaultProxy := "https://pipedapi.kavin.rocks")
}
