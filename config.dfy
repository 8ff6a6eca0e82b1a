/**
 * The settings module: the integer enums the code compares against, and the
 * deployment-specific field lists and table maps. Only the enums are fixed here;
 * the field lists and table maps are parameters (a `Settings` value), so every
 * property below holds whatever they contain.
 */
module Config {

  // Property types (`PropertyType`, an IntEnum numbered from 1).
  const WAREHOUSE: int := 1
  const LAND: int := 2
  const OFFICE: int := 3
  const SHOP: int := 4

  // Ad types (`AdType`).
  const RENT: int := 1
  const SELL: int := 2

  // Comparison status (`Status`).
  const ACTIVE: int := 1
  const ARCHIVE: int := 2

  /** User roles. SECRETARY is referred to by the role registers but has no number in
      the settings module, so roles are a plain enumeration here. */
  datatype Role = Admin | User | Broker | Owner | Secretary

  /** The settings that the modelled code reads but whose values are not fixed by the
      settings module it ships with. */
  datatype Settings = Settings(
    costFlds: seq<string>,             // PPT_COSTS_FLDS: the running cost fields
    whBoolFlds: seq<string>,           // WH_BOOL_FLDS: warehouse yes/no fields
    whRangeFlds: seq<string>,          // WH_RANGE_FLDS: warehouse range fields
    whMdFlds: seq<string>,             // WH_MD_FLDS: fields shown as "min a max"
    rentSellFlds: seq<string>,         // RENT_SELL_FLDS: price fields relabelled with a unit
    renameFlds: map<string, string>,   // const.RENAME_FLDS: field name to label
    fkTables: map<string, string>,     // FK_TABLES: form field to name table
    fileTables: map<string, string>,   // FILE_TABLES: upload folder to file table
    tableNames: map<int, string>,      // PPT_TABLE_NAMES: property type to unit table
    cmpTables: map<int, string>,       // PPT_CMP_TABLES: property type to junction table
    statusNew: int,                    // Status.NEW
    baseDir: string                    // BASE_DIR
  )
}
