/** The widget picker of the settings screen: the offered widgets and the toggle on the selection. */
module WidgetSelector {
  import opened Types

  datatype WidgetOption = WidgetOption(widgetType: WidgetType, caption: string, description: string)

  const AvailableWidgets: seq<WidgetOption> := [
    WidgetOption(SummaryWidget, "Resumen Financiero", "Vista general de tu situación financiera"),
    WidgetOption(TransactionsWidget, "Lista de Transacciones", "Tabla detallada de movimientos"),
    WidgetOption(ChartWidget, "Gráfico de Categorías", "Distribución visual de gastos"),
    WidgetOption(BudgetWidget, "Progreso de Presupuesto", "Barras de progreso por categoría"),
    WidgetOption(AlertsWidget, "Alertas y Anomalías", "Notificaciones de gastos inusuales")
  ]

  /** `selected.filter(w => w !== widget)`. */
  function Without(selected: seq<WidgetType>, widget: WidgetType): (r: seq<WidgetType>)
    ensures widget !in r
    ensures forall v :: v != widget ==> (v in r <==> v in selected)
    ensures |r| <= |selected|
  {
    if selected == [] then []
    else if selected[0] == widget then Without(selected[1..], widget)
    else [selected[0]] + Without(selected[1..], widget)
  }

  /** toggleWidget: remove every occurrence when selected, otherwise append at the end. */
  function Toggle(selected: seq<WidgetType>, widget: WidgetType): seq<WidgetType>
  {
    if widget in selected then Without(selected, widget) else selected + [widget]
  }

  /** The widget types in the order the picker lists them. */
  function OfferedTypes(options: seq<WidgetOption>): (r: seq<WidgetType>)
    ensures |r| == |options|
    ensures forall i :: 0 <= i < |options| ==> r[i] == options[i].widgetType
  {
    if options == [] then [] else [options[0].widgetType] + OfferedTypes(options[1..])
  }

  /** The picker offers each of the five widget types exactly once, in declaration order. */
  lemma AvailableWidgetsComplete()
    ensures OfferedTypes(AvailableWidgets) == AllWidgets
    ensures NoDuplicates(OfferedTypes(AvailableWidgets))
    ensures forall w: WidgetType :: w in OfferedTypes(AvailableWidgets)
  {
    var offered := OfferedTypes(AvailableWidgets);
    assert offered == AllWidgets;
    forall w: WidgetType ensures w in offered {
      match w
      case SummaryWidget => assert offered[0] == w;
      case TransactionsWidget => assert offered[1] == w;
      case ChartWidget => assert offered[2] == w;
      case BudgetWidget => assert offered[3] == w;
      case AlertsWidget => assert offered[4] == w;
    }
  }

  /** After a toggle the widget is selected iff it was not; no other widget changes membership. */
  lemma ToggleFlipsMembership(selected: seq<WidgetType>, widget: WidgetType)
    ensures widget in Toggle(selected, widget) <==> widget !in selected
    ensures forall v :: v != widget ==> (v in Toggle(selected, widget) <==> v in selected)
    ensures widget !in selected ==> Toggle(selected, widget) == selected + [widget]
  {
  }

  lemma {:induction false} WithoutAbsent(selected: seq<WidgetType>, widget: WidgetType)
    requires widget !in selected
    ensures Without(selected, widget) == selected
  {
    if selected != [] {
      WithoutAbsent(selected[1..], widget);
    }
  }

  lemma {:induction false} WithoutAppend(s: seq<WidgetType>, t: seq<WidgetType>, widget: WidgetType)
    ensures Without(s + t, widget) == Without(s, widget) + Without(t, widget)
  {
    if s == [] {
      assert s + t == t;
    } else {
      assert (s + t)[1..] == s[1..] + t;
      WithoutAppend(s[1..], t, widget);
    }
  }

  /**
   * The other widgets keep their relative order: dropping the toggled widget from the result
   * gives the same list as dropping it from the input.
   */
  lemma ToggleKeepsOrderOfOthers(selected: seq<WidgetType>, widget: WidgetType)
    ensures Without(Toggle(selected, widget), widget) == Without(selected, widget)
  {
    if widget in selected {
      WithoutAbsent(Without(selected, widget), widget);
    } else {
      WithoutAppend(selected, [widget], widget);
      assert Without([widget], widget) == [];
    }
  }

  lemma {:induction false} WithoutKeepsNoDuplicates(selected: seq<WidgetType>, widget: WidgetType)
    requires NoDuplicates(selected)
    ensures NoDuplicates(Without(selected, widget))
  {
    if selected != [] {
      var tail := selected[1..];
      assert NoDuplicates(tail) by {
        forall i, j | 0 <= i < j < |tail| ensures tail[i] != tail[j] {
          assert tail[i] == selected[i + 1] && tail[j] == selected[j + 1];
        }
      }
      WithoutKeepsNoDuplicates(tail, widget);
      if selected[0] != widget {
        assert selected[0] !in tail by {
          forall j | 0 <= j < |tail| ensures tail[j] != selected[0] {
            assert tail[j] == selected[j + 1];
          }
        }
        var r := Without(selected, widget);
        assert r == [selected[0]] + Without(tail, widget);
        forall i, j | 0 <= i < j < |r| ensures r[i] != r[j] {
          if i == 0 {
            assert r[j] == Without(tail, widget)[j - 1];
          } else {
            assert r[i] == Without(tail, widget)[i - 1] && r[j] == Without(tail, widget)[j - 1];
          }
        }
      }
    }
  }

  /** A duplicate-free selection stays duplicate-free. */
  lemma ToggleKeepsNoDuplicates(selected: seq<WidgetType>, widget: WidgetType)
    requires NoDuplicates(selected)
    ensures NoDuplicates(Toggle(selected, widget))
  {
    if widget in selected {
      WithoutKeepsNoDuplicates(selected, widget);
    } else {
      var r := selected + [widget];
      forall i, j | 0 <= i < j < |r| ensures r[i] != r[j] {
        if j == |selected| {
          assert r[i] == selected[i];
        } else {
          assert r[i] == selected[i] && r[j] == selected[j];
        }
      }
    }
  }

  /** Toggling an unselected widget twice restores the selection; toggling a selected one twice moves it to the end. */
  lemma ToggleTwice(selected: seq<WidgetType>, widget: WidgetType)
    ensures widget !in selected ==> Toggle(Toggle(selected, widget), widget) == selected
    ensures widget in selected ==> Toggle(Toggle(selected, widget), widget) == Without(selected, widget) + [widget]
  {
    if widget !in selected {
      assert widget in selected + [widget];
      WithoutAppend(selected, [widget], widget);
      assert Without([widget], widget) == [];
      WithoutAbsent(selected, widget);
    }
  }
}
