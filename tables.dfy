/** The two constant tables of the dashboard: the per-sensor display table
    that `initRealTimeUpdates` installs (app.js:207-212) and the interface
    text in English and Afaan Oromo (app.js:20-85). */
module Tables {

  /** One row of the sensor table. `min` and `max` are carried but never
      consulted by the dashboard. */
  datatype SensorEntry = SensorEntry(value: real, min: real, max: real, unit: string, precision: nat)

  /** The sensors in the order in which their entries are written, which is
      the order in which `Object.keys` lists them. */
  const SensorOrder: seq<string> := ["ph", "temperature", "turbidity", "tds"]

  /** The sensor table as installed at start-up. */
  function InitialSensorData(): (data: map<string, SensorEntry>)
    ensures forall s :: s in data <==> s in SensorOrder
    ensures forall s :: s in data ==> data[s].min <= data[s].value <= data[s].max
  {
    map[
      "ph" := SensorEntry(7.2, 6.5, 8.5, "", 1),
      "temperature" := SensorEntry(24.3, 20.0, 30.0, "\U{00B0}C", 1),
      "turbidity" := SensorEntry(4.2, 0.0, 10.0, " NTU", 1),
      "tds" := SensorEntry(180.0, 0.0, 500.0, " ppm", 0)
    ]
  }

  /** English interface text, keyed by `data-i18n` attribute. */
  function English(): (table: map<string, string>)
    ensures forall k :: k in table ==> table[k] != ""
  {
    map[
      "nav-home" := "<i class=\"fas fa-home\"></i> Home",
      "nav-dash" := "<i class=\"fas fa-gauge\"></i> Live Dashboard",
      "nav-data" := "<i class=\"fas fa-chart-line\"></i> Data History",
      "nav-about" := "<i class=\"fas fa-users\"></i> About",
      "hero-title" := "Smart Water Quality Monitoring System",
      "hero-subtitle" := "Real-time monitoring of water parameters using IoT technology",
      "view-dash-btn" := "View Live Dashboard",
      "features-title" := "Key Features",
      "feat-rt-title" := "Real-time Monitoring",
      "feat-rt-desc" := "Continuous tracking of water quality parameters every 5 seconds",
      "feat-alert-title" := "Instant Alerts",
      "feat-alert-desc" := "Get notified when water quality exceeds safe limits",
      "feat-data-title" := "Data Analytics",
      "feat-data-desc" := "Historical data analysis with interactive charts",
      "feat-remote-title" := "Remote Access",
      "feat-remote-desc" := "Monitor water quality from anywhere using web interface",
      "status-section-title" := "Current Water Quality Status",
      "ph-label" := "pH Level",
      "temp-label" := "Temperature",
      "turb-label" := "Turbidity",
      "tds-label" := "TDS",
      "status-normal" := "Normal",
      "status-good" := "Good",
      "status-mod" := "Moderate",
      "status-safe" := "Safe",
      "tech-title" := "Technology Used",
      "team-title" := "Project Team",
      "contact-title" := "Contact",
      "bt-connect" := "Connect Bluetooth",
      "bt-connected" := "Connected"
    ]
  }

  /** Afaan Oromo interface text, keyed by `data-i18n` attribute. */
  function Oromo(): (table: map<string, string>)
    ensures forall k :: k in table ==> table[k] != ""
  {
    map[
      "nav-home" := "<i class=\"fas fa-home\"></i> Mana",
      "nav-dash" := "<i class=\"fas fa-gauge\"></i> Dashboard",
      "nav-data" := "<i class=\"fas fa-chart-line\"></i> Seenaa Daataa",
      "nav-about" := "<i class=\"fas fa-users\"></i> Waa\U{2019}ee Keenya",
      "hero-title" := "Sirna Hordoffii Qulqullina Bishaan Saayinsawaa",
      "hero-subtitle" := "Teknooloojii IoT fayyadamuun qulqullina bishaanii hordofuu",
      "view-dash-btn" := "Dashboard Ilaali",
      "features-title" := "Dandeettiiwwan Ijoo",
      "feat-rt-title" := "Hordoffii Yeroodhaa",
      "feat-rt-desc" := "Sekondii 5 hundaatti jijjiirama bishaanii hordofuu",
      "feat-alert-title" := "Akeekkachiisa Yeroodhaa",
      "feat-alert-desc" := "Yoo qulqullinni bishaanii hir\U{2019}ate akeekkachiisa ni kenna",
      "feat-data-title" := "Xiinxala Daataa",
      "feat-data-desc" := "Daataa darbe bifa fakkii fi chaartiitiin xiinxaluu",
      "feat-remote-title" := "Bakka Jiruu To\U{2019}achuu",
      "feat-remote-desc" := "Interneetiin bakka jirtan hundatti hordofuu dandeessu",
      "status-section-title" := "Haala Qulqullina Bishaan Ammee",
      "ph-label" := "Sadarkaa pH",
      "temp-label" := "Ho'ina (Temp)",
      "turb-label" := "Bishaan xuraawaa",
      "tds-label" := "TDS",
      "status-normal" := "Normal",
      "status-good" := "Gaarii",
      "status-mod" := "Giddu-galeessa",
      "status-safe" := "Nageenya",
      "tech-title" := "Teknooloojii Fayyadamne",
      "team-title" := "Garee Hojii",
      "contact-title" := "Nu Quunnamaa",
      "bt-connect" := "Bluetooth Connect",
      "bt-connected" := "Xuraawaa"
    ]
  }

  /** The translation tables by language code. */
  function Translations(): map<string, map<string, string>>
  {
    map["en" := English(), "om" := Oromo()]
  }
}
