// The one-off setup script: the production values offered to the settings
// table with INSERT OR IGNORE, so that repeated runs never overwrite.
module SetupDb {
  import opened SettingsDb

  /** The non-secret production values the script offers. */
  const ProductionSettings: seq<DefaultSetting> := [
    DefaultSetting("timezone", "America/Los_Angeles", "general",
      "Zona horaria del sistema (IANA)"),
    DefaultSetting("log_level", "debug", "general",
      "Nivel de log: debug, info, warn, error"),
    DefaultSetting("sucursal_wix", "101", "general",
      "ID de sucursal para Wix"),
    DefaultSetting("state_dir", "./state", "general",
      "Directorio para archivos de estado (watermarks, snapshots)"),
    DefaultSetting("smtp.port", "587", "smtp",
      "Puerto del servidor SMTP"),
    DefaultSetting("smtp.secure", "false", "smtp",
      "Usar TLS para SMTP (true/false)"),
    DefaultSetting("smtp.from", "sistemas@e-proconsa.com", "smtp",
      "Dirección de remitente para correos"),
    DefaultSetting("emails.marketing", "it@e-proconsa.com", "emails",
      "Destinatarios generales de marketing (fallback). Separar con coma."),
    DefaultSetting("emails.abandoned_carts", "Marketin@e-proconsa.com,rochoa@e-proconsa.com,it@e-proconsa.com", "emails",
      "Destinatarios del reporte de carritos abandonados. Separar con coma."),
    DefaultSetting("emails.chat_leads", "Marketin@e-proconsa.com,rochoa@e-proconsa.com,it@e-proconsa.com", "emails",
      "Destinatarios del reporte de leads del chat. Separar con coma."),
    DefaultSetting("emails.chat_analysis", "it@e-proconsa.com", "emails",
      "Destinatarios del reporte de análisis del chat. Separar con coma."),
    DefaultSetting("emails.erp_postgres_sync", "", "emails",
      "Destinatarios del reporte de sincronización ERP→PostgreSQL. Separar con coma."),
    DefaultSetting("mssql.port", "1433", "mssql",
      "Puerto del servidor MSSQL"),
    DefaultSetting("mssql.database", "ldcom_proconsa", "mssql",
      "Base de datos MSSQL"),
    DefaultSetting("mssql.encrypt", "false", "mssql",
      "Encriptar conexión MSSQL (true/false)"),
    DefaultSetting("mssql.trust_server_cert", "true", "mssql",
      "Confiar en certificado del servidor MSSQL (true/false)"),
    DefaultSetting("mssql.emp_id", "1", "mssql",
      "ID de empleado para consultas MSSQL"),
    DefaultSetting("pg.port", "5632", "pg",
      "Puerto del servidor PostgreSQL"),
    DefaultSetting("pg.database", "prices", "pg",
      "Base de datos PostgreSQL"),
    DefaultSetting("odoo.livechat_channel_id", "1", "odoo",
      "ID del canal de livechat en Odoo"),
    DefaultSetting("odoo.reports_dir", "./reports", "odoo",
      "Directorio para reportes generados"),
    DefaultSetting("odoo.stock_write_concurrency", "6", "odoo",
      "Concurrencia de escritura de stock en Odoo"),
    DefaultSetting("odoo.stock_write_retries", "4", "odoo",
      "Reintentos de escritura de stock en Odoo"),
    DefaultSetting("odoo.product_write_concurrency", "10", "odoo",
      "Concurrencia de escritura de productos en Odoo"),
    DefaultSetting("odoo.product_write_retries", "3", "odoo",
      "Reintentos de escritura de productos en Odoo"),
    DefaultSetting("odoo.rpc_timeout_ms", "300000", "odoo",
      "Timeout de RPC en milisegundos"),
    DefaultSetting("wix.min_stock_threshold", "10", "wix",
      "Umbral mínimo de stock total. Si el stock sumado es menor, se pone en 0 en Wix."),
    DefaultSetting("wix.dry_run", "true", "wix",
      "Modo prueba: no escribe en Wix (true/false). Cambiar a false para activar."),
    DefaultSetting("wix.branch_prefix", "1", "wix",
      "Prefijo de sucursales a incluir en suma de stock (ej: \"1\" para Mexicali)."),
    DefaultSetting("task.odoo-inventory-sync-full.enabled", "true", "tasks",
      "Habilitar tarea de sincronización completa de inventario Odoo (true/false)"),
    DefaultSetting("task.odoo-inventory-sync-stock.enabled", "true", "tasks",
      "Habilitar tarea de sincronización de stock Odoo (true/false)"),
    DefaultSetting("erp_odoo.dry_run", "false", "erp_odoo",
      "Modo prueba: no escribe en Odoo (true/false)"),
    DefaultSetting("erp_odoo.max_inventory_rows", "50000", "erp_odoo",
      "Máximo de filas de inventario por ejecución"),
    DefaultSetting("erp_odoo.max_product_rows", "20000", "erp_odoo",
      "Máximo de filas de productos por ejecución"),
    DefaultSetting("erp_odoo.max_image_rows", "3000", "erp_odoo",
      "Máximo de filas de imágenes por ejecución")
  ]

  /** `main`: a dry run only lists the values and returns before opening the
   *  database; otherwise every value is offered once and counted as
   *  inserted or skipped. */
  method Setup(dryRun: bool, db: Store, now: string) returns (inserted: nat, skipped: nat)
    modifies db
    ensures dryRun ==> db.rows == old(db.rows) && inserted == 0 && skipped == 0
    ensures !dryRun ==> db.rows == Seeded(old(db.rows), ProductionSettings, now)
    ensures !dryRun ==> inserted == |KeysOf(ProductionSettings) - old(db.rows).Keys|
    ensures !dryRun ==> inserted + skipped == |ProductionSettings|
  {
    if dryRun {
      return 0, 0;
    }
    inserted, skipped := db.Seed(ProductionSettings, now);
  }

  /** Running the script twice: the second run inserts nothing and leaves the
   *  table as the first run left it; stored values survive both runs. */
  method SetupTwice(db: Store, now: string, later: string) returns (first: nat, second: nat)
    modifies db
    ensures second == 0
    ensures db.rows == Seeded(old(db.rows), ProductionSettings, now)
    ensures forall k :: k in old(db.rows) ==> k in db.rows && db.rows[k] == old(db.rows)[k]
  {
    ghost var before := db.rows;
    var skipped;
    first, skipped := Setup(false, db, now);
    SeedIdempotent(before, ProductionSettings, now, later);
    second, skipped := Setup(false, db, later);
    forall k | k in before ensures k in db.rows && db.rows[k] == before[k] {
      SeededKeeps(before, ProductionSettings, now, k);
    }
  }
}
