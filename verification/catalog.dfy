/**
 * The static catalog tables the router and the order form look entities up in.
 * Every kind of entry (gas, solution, service, equipment) is looked up by its string id.
 */
module CatalogData {
  import opened Wrappers

  /** An entry's `items`: a text, a list joined for display, or absent. */
  datatype Items = NoItems | Text(text: string) | List(list: seq<string>)

  /** A catalog entry; gases describe themselves by `description`, the other kinds by `items`. */
  datatype Entity = Entity(id: string, name: string, description: string, items: Items)

  /** The four tables `GASES`, `SOLUTIONS`, `SERVICES`, `EQUIPMENT`. */
  datatype Tables = Tables(gases: seq<Entity>, solutions: seq<Entity>, services: seq<Entity>, equipment: seq<Entity>)

  /** `table.find((e) => e.id === id) || null`: the first entry with that id; an absent id matches nothing. */
  function Find(table: seq<Entity>, id: Option<string>): (r: Option<Entity>)
    ensures r.Some? ==> r.value in table && id == Some(r.value.id)
    ensures r.None? <==> id.None? || !Contains(table, id.value)
    // the entry found is the first one carrying the id
    ensures r.Some? ==> exists i :: 0 <= i < |table| && table[i] == r.value &&
                                    forall j :: 0 <= j < i ==> table[j].id != id.value
    decreases |table|
  {
    if id.None? || |table| == 0 then None
    else if table[0].id == id.value then Some(table[0])
    else
      var r := Find(table[1..], id);
      assert forall e :: e in table[1..] ==> e in table;
      assert r.Some? ==> exists i :: 0 <= i < |table| && table[i] == r.value &&
                                    forall j :: 0 <= j < i ==> table[j].id != id.value by {
        if r.Some? {
          var i :| 0 <= i < |table[1..]| && table[1..][i] == r.value &&
                   forall j :: 0 <= j < i ==> table[1..][j].id != id.value;
          assert table[i + 1] == r.value;
          assert forall j :: 0 <= j < i + 1 ==> table[j].id != id.value by {
            forall j | 0 <= j < i + 1 ensures table[j].id != id.value {
              if j > 0 { assert table[j] == table[1..][j - 1]; }
            }
          }
        }
      }
      assert Contains(table, id.value) ==> Contains(table[1..], id.value) by {
        if Contains(table, id.value) {
          var e :| e in table && e.id == id.value;
          assert e != table[0];
        }
      }
      r
  }

  /** `table.some((e) => e.id === id)`. */
  predicate Contains(table: seq<Entity>, id: string)
  {
    exists e :: e in table && e.id == id
  }

  /** `some` succeeds exactly when some index of the table holds an entry with the id. */
  lemma ContainsAtIndex(table: seq<Entity>, id: string)
    ensures Contains(table, id) <==> exists i :: 0 <= i < |table| && table[i].id == id
  {
    if Contains(table, id) {
      var e :| e in table && e.id == id;
      var i :| 0 <= i < |table| && table[i] == e;
    }
  }

  predicate UniqueIds(table: seq<Entity>)
  {
    forall i, j :: 0 <= i < |table| && 0 <= j < |table| && table[i].id == table[j].id ==> i == j
  }

  /** In a table whose ids are unique, looking an entry up by its own id finds that entry. */
  lemma {:induction false} FindOwnId(table: seq<Entity>, e: Entity)
    requires UniqueIds(table)
    requires e in table
    ensures Find(table, Some(e.id)) == Some(e)
    decreases |table|
  {
    if table[0] != e {
      assert table[0].id != e.id by {
        var k :| 0 <= k < |table| && table[k] == e;
      }
      assert UniqueIds(table[1..]) by {
        forall i, j | 0 <= i < |table[1..]| && 0 <= j < |table[1..]| && table[1..][i].id == table[1..][j].id
          ensures i == j
        {
          assert table[i + 1].id == table[j + 1].id;
        }
      }
      FindOwnId(table[1..], e);
    }
  }

  /** The equipment table of `src/data/equipment.js`. */
  const EQUIPMENT: seq<Entity> := [
    Entity("eq-gauges", "Манометры", "", Text("Корпуса, классы точности, резьбы")),
    Entity("eq-ramps", "Газоразрядные рампы", "", Text("Односторонние/двусторонние, с автоматикой")),
    Entity("eq-cylinders", "Баллоны", "", Text("5/10/25/40/50 л, резьбы, аттестация")),
    Entity("eq-storage", "Системы хранения", "", Text("Комплексы хранения и подачи"))
  ]

  /** The service table of `src/data/services.js`. */
  const SERVICES: seq<Entity> := [
    Entity("svc-maint", "Обслуживание оборудования", "", Text("ТО, регламентные работы, настройка")),
    Entity("svc-audit", "Аудит", "", Text("Проверка узлов, утечек, паспортов, регистров")),
    Entity("svc-design", "Проектирование", "", Text("Проект газоснабжения, подбор схем")),
    Entity("svc-install", "Монтаж", "", Text("Монтаж, обвязка, пусконаладка"))
  ]

  /** The region an order form starts with. */
  const DEFAULT_REGION := "Москва и область"
}
