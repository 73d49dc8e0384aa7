// Parsed JSON values, as the transport codecs see them.
module JsonValues {

  datatype Json = Null | Text(text: string) | Number(value: real) | Flag(on: bool)
                | Array(items: seq<Json>) | Object(fields: map<string, Json>)

  // The dictionary with one key renamed, keeping its value.
  function Renamed(m: map<string, Json>, from: string, to: string): map<string, Json>
    requires from in m
  {
    (m - {from})[to := m[from]]
  }
}
