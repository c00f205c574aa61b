/** The configuration value the drivers and the generator consume (include/config.hpp). */
module Config {
  import opened Ints

  datatype SystemConfig = SystemConfig(
    interfaceName: string,
    driverType: string,
    filterIds: seq<uint32>,
    useExtendedId: bool,
    humanReadable: bool)
}
